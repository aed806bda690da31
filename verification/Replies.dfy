/** What every submission is answered, and what it does, as told by the log. */
module Replies {
  import opened Basics
  import opened Wire
  import opened EventSourcing
  import opened EventLog
  import opened Recovery

  ghost predicate KnownId(log: seq<Record>, e: Envelope) {
    exists r <- log :: r.envelope.eventId == e.eventId
  }

  ghost predicate Logged(log: seq<Record>, e: Envelope) {
    exists r <- log :: r.envelope == e
  }

  /** The source has been heard with this sequence, or a later one. */
  ghost predicate Stale(log: seq<Record>, e: Envelope) {
    exists r <- log :: r.envelope.sourceId == e.sourceId && r.envelope.sequence >= e.sequence
  }

  /** What the subject's own records and then e come to, or why they do not. */
  ghost function Outcome<S, E>(rules: Rules<S, E>, log: seq<Record>, e: Envelope): Result<S> {
    var before :- Project(rules, Own(log, e.subject));
    var event :- rules.codec.decode(e);
    rules.apply(before, event)
  }

  lemma KnownTold<S>(live: Runtime<S>, log: seq<Record>, e: Envelope)
    requires AcceptedTable(live.accepted, log)
    ensures KnownId(log, e) <==> e.eventId in live.accepted
  {
    if KnownId(log, e) {
      var r :| r in log && r.envelope.eventId == e.eventId;
      var i :| 0 <= i < |log| && log[i] == r;
    }
    if e.eventId in live.accepted {
      var i :| 0 <= i < |log| && log[i].envelope.eventId == e.eventId;
      assert log[i] in log;
    }
  }

  lemma LoggedTold<S>(live: Runtime<S>, log: seq<Record>, e: Envelope)
    requires AcceptedTable(live.accepted, log)
    ensures Logged(log, e) <==> AlreadyAccepted(live, e)
  {
    if Logged(log, e) {
      var r :| r in log && r.envelope == e;
      var i :| 0 <= i < |log| && log[i] == r;
    }
    if AlreadyAccepted(live, e) {
      var i :| 0 <= i < |log| && log[i].envelope.eventId == e.eventId;
      assert log[i] in log;
    }
  }

  lemma StaleTold<S>(live: Runtime<S>, log: seq<Record>, e: Envelope)
    requires LatestTable(live.latest, log)
    ensures Stale(log, e) <==> e.sourceId in live.latest && e.sequence <= live.latest[e.sourceId]
  {
    if Stale(log, e) {
      var r :| r in log && r.envelope.sourceId == e.sourceId && r.envelope.sequence >= e.sequence;
      var i :| 0 <= i < |log| && log[i] == r;
    }
    if e.sourceId in live.latest && e.sequence <= live.latest[e.sourceId] {
      var i :| LastOfSource(log, i, e.sourceId) && log[i].envelope.sequence == live.latest[e.sourceId];
      assert log[i] in log;
    }
  }

  lemma OutcomeTold<S, E>(rules: Rules<S, E>, w: World<S>, e: Envelope)
    requires Sound(rules, w)
    ensures Project(rules, Own(w.log, e.subject)) == Ok(StateOf(rules, w.live.states, e.subject))
    ensures Outcome(rules, w.log, e) == ApplyToState(rules, w.live.states, e)
  {
    hide TablesSound, Project, Own;
    ReplayProjects(rules, w.log, e.subject);
  }

  /** A submission that is answered in this way has changed nothing. */
  ghost predicate OnlyAnswered<S, E>(rules: Rules<S, E>, w: World<S>, e: Envelope, result: (World<S>, Reply<S>),
                                     status: Status, error: Option<ErrorCode>) {
    var current := Project(rules, Own(w.log, e.subject));
    current.Ok? && result == (w, Reply(status, current.value, error))
  }

  /**
   * What the log says about a submission: an event of the log is a duplicate; an event with a known id but other
   * content, or with a sequence that its source has passed, is a conflict; what cannot follow the subject's own records
   * is refused with the very error of the rules; a failing disk is a storage failure; everything else is accepted,
   * logged with the next number, and published.
   */
  ghost predicate AsLogged<S, E>(rules: Rules<S, E>, w: World<S>, e: Envelope, receivedAt: int, acceptedAt: int,
                                 diskOk: bool, result: (World<S>, Reply<S>)) {
    var outcome := Outcome(rules, w.log, e);
    if Logged(w.log, e) then OnlyAnswered(rules, w, e, result, Duplicate, None)
    else if KnownId(w.log, e) || Stale(w.log, e) then
      OnlyAnswered(rules, w, e, result, Rejected, Some(Conflict))
    else if outcome.Err? then OnlyAnswered(rules, w, e, result, Rejected, Some(outcome.error))
    else if !diskOk then OnlyAnswered(rules, w, e, result, StorageFailed, Some(StorageFailure))
    else
      && result.1 == Reply(Accepted, outcome.value, None)
      && result.0.log == w.log + [Record(e, receivedAt, acceptedAt, |w.log| + 1)]
      && result.0.published == w.published + [Publication(e, outcome.value)]
  }

  lemma JudgedByLog<S, E>(rules: Rules<S, E>, w: World<S>, e: Envelope)
    requires Sound(rules, w)
    ensures Judge(rules, w.live, e)
         == if Logged(w.log, e) then Seen
            else if KnownId(w.log, e) || Stale(w.log, e) then Refuse(Conflict)
            else match Outcome(rules, w.log, e) case Err(c) => Refuse(c) case Ok(s) => Admit(s)
  {
    hide Outcome, Logged, KnownId, Stale, ApplyToState, LogSound, AcceptedTable, LatestTable;
    KnownTold(w.live, w.log, e);
    LoggedTold(w.live, w.log, e);
    StaleTold(w.live, w.log, e);
    OutcomeTold(rules, w, e);
    LoggedIsKnown(w.log, e);
  }

  lemma LoggedIsKnown(log: seq<Record>, e: Envelope)
    ensures Logged(log, e) ==> KnownId(log, e)
  {
  }

  lemma SoundReply<S, E>(rules: Rules<S, E>, w: World<S>, e: Envelope, receivedAt: int, acceptedAt: int, diskOk: bool)
    requires Sound(rules, w)
    ensures AsLogged(rules, w, e, receivedAt, acceptedAt, diskOk,
                     Submit(rules, w, e, receivedAt, acceptedAt, diskOk))
  {
    hide Outcome, Logged, KnownId, Stale, Project, Own, Sound, Appended, Judge;
    JudgedByLog(rules, w, e);
    OutcomeTold(rules, w, e);
    Numbering(rules, w);
  }

  lemma Numbering<S, E>(rules: Rules<S, E>, w: World<S>)
    requires Sound(rules, w)
    ensures w.live.acceptance == |w.log|
  {
  }

  /** Over every run the log decides what a submission is answered, and unless it is accepted nothing changes. */
  lemma EveryReply<S, E>(rules: Rules<S, E>, ops: seq<Op>, e: Envelope, receivedAt: int, acceptedAt: int, diskOk: bool)
    requires ProperIdKey(rules.codec.idKey) && Run(rules, ops).Ok?
    ensures var w := Run(rules, ops).value.world;
            AsLogged(rules, w, e, receivedAt, acceptedAt, diskOk,
                     Submit(rules, w, e, receivedAt, acceptedAt, diskOk))
  {
    hide Submit, AsLogged, Sound;
    RunSound(rules, ops);
    SoundReply(rules, Run(rules, ops).value.world, e, receivedAt, acceptedAt, diskOk);
  }
}
