/** Recovery: whatever happened before, reading the sharded log back rebuilds the live state. */
module Recovery {
  import opened Basics
  import opened Ordering
  import opened Wire
  import opened EventSourcing
  import opened EventLog

  // ---- the invariant of every world ---------------------------------------------------------

  ghost predicate DistinctEvents(log: seq<Record>) {
    forall i, j | 0 <= i < j < |log| :: log[i].envelope.eventId != log[j].envelope.eventId
  }

  /** Event ids are distinct, and the sequences of each source increase. */
  ghost predicate Disciplined(log: seq<Record>) {
    && DistinctEvents(log)
    && (forall i, j | 0 <= i < j < |log| ::
          log[i].envelope.sourceId == log[j].envelope.sourceId ==>
            log[i].envelope.sequence < log[j].envelope.sequence)
  }

  /** The duplicate table holds exactly the log's envelopes. */
  ghost predicate AcceptedTable(accepted: map<string, Envelope>, log: seq<Record>) {
    && (forall i | 0 <= i < |log| ::
          log[i].envelope.eventId in accepted && accepted[log[i].envelope.eventId] == log[i].envelope)
    && (forall id | id in accepted :: exists i :: 0 <= i < |log| && log[i].envelope.eventId == id)
  }

  /** r is the last record of its source. */
  ghost predicate LastOfSource(log: seq<Record>, i: int, source: string) {
    && 0 <= i < |log| && log[i].envelope.sourceId == source
    && forall j | i < j < |log| :: log[j].envelope.sourceId != source
  }

  /** The sequence table holds, for each source, the sequence of its last record, which is also its greatest. */
  ghost predicate LatestTable(latest: map<string, nat>, log: seq<Record>) {
    && (forall i | 0 <= i < |log| ::
          log[i].envelope.sourceId in latest && log[i].envelope.sequence <= latest[log[i].envelope.sourceId])
    && (forall source | source in latest ::
          exists i :: LastOfSource(log, i, source) && log[i].envelope.sequence == latest[source])
  }

  /** Each publication shows the state of its subject after replaying the log up to its record. */
  ghost function Publications<S, E>(rules: Rules<S, E>, log: seq<Record>): seq<Publication<S>> {
    if log == [] then []
    else
      var e := log[|log| - 1].envelope;
      Publications(rules, log[..|log| - 1])
      + [Publication(e, StateOf(rules, Replay(rules, log).live.states, e.subject))]
  }

  ghost predicate TablesSound<S>(live: Runtime<S>, log: seq<Record>) {
    Disciplined(log) && AcceptedTable(live.accepted, log) && LatestTable(live.latest, log)
  }

  /** The live state, the shards and the numbering are those of the log, and every record decodes. */
  ghost predicate LogSound<S, E>(rules: Rules<S, E>, live: Runtime<S>, shards: map<string, seq<Json>>,
                                 log: seq<Record>) {
    && Replay(rules, log) == Replayed(live, None)
    && Numbered(log) && live.acceptance == |log|
    && Sharded(Printer(rules.codec.idKey), shards, log)
    && (forall r <- log :: rules.codec.decode(r.envelope).Ok?)
  }

  /** The invariant of every world. */
  ghost predicate Sound<S, E>(rules: Rules<S, E>, w: World<S>) {
    && LogSound(rules, w.live, w.shards, w.log)
    && TablesSound(w.live, w.log)
    && w.published == Publications(rules, w.log)
  }

  lemma EmptyWorldSound<S, E>(rules: Rules<S, E>)
    ensures Sound(rules, EmptyWorld())
  {
  }

  lemma DisciplineExtended(accepted: map<string, Envelope>, latest: map<string, nat>, log: seq<Record>, r: Record)
    requires Disciplined(log) && AcceptedTable(accepted, log) && LatestTable(latest, log)
    requires r.envelope.eventId !in accepted
    requires r.envelope.sourceId in latest ==> latest[r.envelope.sourceId] < r.envelope.sequence
    ensures Disciplined(log + [r])
  {
  }

  lemma AcceptedExtended(accepted: map<string, Envelope>, log: seq<Record>, r: Record)
    requires AcceptedTable(accepted, log) && r.envelope.eventId !in accepted
    ensures AcceptedTable(accepted[r.envelope.eventId := r.envelope], log + [r])
  {
    var log', accepted' := log + [r], accepted[r.envelope.eventId := r.envelope];
    forall id | id in accepted'
      ensures exists i :: 0 <= i < |log'| && log'[i].envelope.eventId == id
    {
      if id == r.envelope.eventId {
        assert log'[|log|].envelope.eventId == id;
      } else {
        var i :| 0 <= i < |log| && log[i].envelope.eventId == id;
        assert log'[i].envelope.eventId == id;
      }
    }
  }

  lemma LatestExtended(latest: map<string, nat>, log: seq<Record>, r: Record)
    requires LatestTable(latest, log)
    requires r.envelope.sourceId in latest ==> latest[r.envelope.sourceId] < r.envelope.sequence
    ensures LatestTable(latest[r.envelope.sourceId := r.envelope.sequence], log + [r])
  {
    var log', latest' := log + [r], latest[r.envelope.sourceId := r.envelope.sequence];
    forall source | source in latest'
      ensures exists i :: LastOfSource(log', i, source) && log'[i].envelope.sequence == latest'[source]
    {
      if source == r.envelope.sourceId {
        assert LastOfSource(log', |log|, source);
      } else {
        var i :| LastOfSource(log, i, source) && log[i].envelope.sequence == latest[source];
        assert LastOfSource(log', i, source);
      }
    }
  }

  lemma {:induction false} FailedReplayStops<S, E>(rules: Rules<S, E>, records: seq<Record>, n: nat)
    requires n <= |records| && Replay(rules, records[..n]).error.Some?
    ensures Replay(rules, records) == Replay(rules, records[..n])
    decreases |records| - n
  {
    if n < |records| {
      assert records[..n + 1][..n] == records[..n];
      FailedReplayStops(rules, records, n + 1);
    } else {
      assert records[..n] == records;
    }
  }

  lemma ReplayOneMore<S, E>(rules: Rules<S, E>, log: seq<Record>, r: Record)
    requires Replay(rules, log).error.None?
    requires ApplyToState(rules, Replay(rules, log).live.states, r.envelope).Ok?
    ensures var before := Replay(rules, log).live;
            Replay(rules, log + [r])
            == Replayed(Absorb(before, r, ApplyToState(rules, before.states, r.envelope).value), None)
  {
    assert (log + [r])[..|log|] == log;
  }

  lemma PublishedOneMore<S, E>(rules: Rules<S, E>, log: seq<Record>, r: Record)
    ensures Publications(rules, log + [r]) == Publications(rules, log)
      + [Publication(r.envelope, StateOf(rules, Replay(rules, log + [r]).live.states, r.envelope.subject))]
  {
    assert (log + [r])[..|log|] == log;
  }

  lemma AdmitTables<S>(live: Runtime<S>, log: seq<Record>, r: Record, after: S)
    requires TablesSound(live, log)
    requires r.envelope.eventId !in live.accepted
    requires r.envelope.sourceId in live.latest ==> live.latest[r.envelope.sourceId] < r.envelope.sequence
    ensures TablesSound(Absorb(live, r, after), log + [r])
  {
    DisciplineExtended(live.accepted, live.latest, log, r);
    AcceptedExtended(live.accepted, log, r);
    LatestExtended(live.latest, log, r);
  }

  lemma AdmitLog<S, E>(rules: Rules<S, E>, live: Runtime<S>, shards: map<string, seq<Json>>, log: seq<Record>,
                       r: Record, after: S)
    requires LogSound(rules, live, shards, log) && r.acceptance == live.acceptance + 1
    requires ApplyToState(rules, live.states, r.envelope) == Ok(after)
    ensures LogSound(rules, Absorb(live, r, after), Appended(Printer(rules.codec.idKey), shards, r), log + [r])
  {
    ReplayOneMore(rules, log, r);
    AppendKeepsShards(Printer(rules.codec.idKey), shards, log, r);
  }

  /** e is new, not stale, and leads to the state after. */
  ghost predicate Admissible<S, E>(rules: Rules<S, E>, live: Runtime<S>, e: Envelope, after: S) {
    && e.eventId !in live.accepted
    && (e.sourceId in live.latest ==> live.latest[e.sourceId] < e.sequence)
    && ApplyToState(rules, live.states, e) == Ok(after)
  }

  lemma JudgeAdmits<S, E>(rules: Rules<S, E>, live: Runtime<S>, e: Envelope, after: S)
    ensures Judge(rules, live, e) == Admit(after) <==> Admissible(rules, live, e, after)
  {
  }

  lemma AdmitSound<S, E>(rules: Rules<S, E>, w: World<S>, r: Record, after: S, w': World<S>)
    requires Sound(rules, w) && r.acceptance == w.live.acceptance + 1
    requires Admissible(rules, w.live, r.envelope, after)
    requires w' == World(Absorb(w.live, r, after), Appended(Printer(rules.codec.idKey), w.shards, r),
                         w.log + [r], w.published + [Publication(r.envelope, after)])
    ensures Sound(rules, w')
  {
    assert TablesSound(w'.live, w'.log) by {
      AdmitTables(w.live, w.log, r, after);
    }
    assert LogSound(rules, w'.live, w'.shards, w'.log) by {
      AdmitLog(rules, w.live, w.shards, w.log, r, after);
    }
    PublishedOneMore(rules, w.log, r);
  }

  /** A submission keeps the invariant, whatever its outcome. */
  lemma SubmitSound<S, E>(rules: Rules<S, E>, w: World<S>, e: Envelope, receivedAt: int, acceptedAt: int, diskOk: bool)
    requires Sound(rules, w)
    ensures Sound(rules, Submit(rules, w, e, receivedAt, acceptedAt, diskOk).0)
    ensures forall r <- Submit(rules, w, e, receivedAt, acceptedAt, diskOk).0.log :: r in w.log || r.envelope == e
  {
    hide Sound, Absorb, Appended, Admissible, Judge;
    match Judge(rules, w.live, e) {
      case Admit(after) =>
        JudgeAdmits(rules, w.live, e, after);
        if diskOk {
          AdmitSound(rules, w, Record(e, receivedAt, acceptedAt, w.live.acceptance + 1), after,
                     Submit(rules, w, e, receivedAt, acceptedAt, diskOk).0);
        }
      case _ =>
    }
  }

  // ---- restart ------------------------------------------------------------------------------

  lemma RecordsInverse<E>(codec: Codec<E>)
    requires ProperIdKey(codec.idKey)
    ensures Inverse(Printer(codec.idKey), Parser(codec))
    ensures forall r :: Readable(Printer(codec.idKey), Parser(codec), r)
                   <==> WellFormed(r.envelope) && codec.decode(r.envelope).Ok?
  {
    forall r
      ensures Parser(codec)(Printer(codec.idKey)(r)).Ok? <==> WellFormed(r.envelope) && codec.decode(r.envelope).Ok?
      ensures Parser(codec)(Printer(codec.idKey)(r)).Ok? ==> Parser(codec)(Printer(codec.idKey)(r)) == Ok(r)
    {
      RecordRoundTrip(codec, r);
    }
  }

  ghost predicate AllWellFormed(log: seq<Record>) {
    forall r <- log :: WellFormed(r.envelope)
  }

  /** The shards read back exactly when every logged envelope is well formed; replay then rebuilds the live state. */
  lemma ReadBackRebuilds<S, E>(rules: Rules<S, E>, w: World<S>)
    requires ProperIdKey(rules.codec.idKey) && Sound(rules, w)
    ensures ReadAll(Parser(rules.codec), w.shards).Ok? <==> AllWellFormed(w.log)
    ensures AllWellFormed(w.log) ==> ReadAll(Parser(rules.codec), w.shards) == Ok(w.log)
    ensures Replay(rules, w.log) == Replayed(w.live, None)
  {
    RecordsInverse(rules.codec);
    ReadBack(Printer(rules.codec.idKey), Parser(rules.codec), w.shards, w.log);
    assert (forall r <- w.log :: Readable(Printer(rules.codec.idKey), Parser(rules.codec), r))
      <==> AllWellFormed(w.log);
  }

  /** A restart succeeds exactly when every logged envelope is well formed, and then it changes nothing. */
  lemma RestartRecovers<S, E>(rules: Rules<S, E>, w: World<S>)
    requires ProperIdKey(rules.codec.idKey) && Sound(rules, w)
    ensures Restart(rules, w).Ok? <==> AllWellFormed(w.log)
    ensures Restart(rules, w).Ok? ==> Restart(rules, w) == Ok(w)
  {
    ReadBackRebuilds(rules, w);
  }

  // ---- runs ---------------------------------------------------------------------------------

  ghost predicate WellFormedOps(ops: seq<Op>) {
    forall op <- ops :: op.Submission? ==> WellFormed(op.envelope)
  }

  /** A world from which a restart is safe. */
  ghost predicate Durable<S, E>(rules: Rules<S, E>, w: World<S>) {
    Sound(rules, w) && AllWellFormed(w.log)
  }

  lemma StepDurable<S, E>(rules: Rules<S, E>, t: Trace<S>, op: Op)
    requires ProperIdKey(rules.codec.idKey) && Durable(rules, t.world)
    requires op.Submission? ==> WellFormed(op.envelope)
    ensures Step(rules, t, op).Ok? && Durable(rules, Step(rules, t, op).value.world)
    ensures op.Reboot? ==> Step(rules, t, op) == Ok(t)
  {
    match op {
      case Reboot => RestartRecovers(rules, t.world);
      case Submission(e, receivedAt, acceptedAt, diskOk) =>
        SubmitSound(rules, t.world, e, receivedAt, acceptedAt, diskOk);
    }
  }

  /**
   * Recovery: a run of well-formed submissions, accepted or not, with failing disks and restarts anywhere, never
   * fails; at its end the live state is the replay of the log, and the log is what the shards read back as.
   */
  lemma {:induction false} RunRecovers<S, E>(rules: Rules<S, E>, ops: seq<Op>)
    requires ProperIdKey(rules.codec.idKey) && WellFormedOps(ops)
    ensures Run(rules, ops).Ok? && Durable(rules, Run(rules, ops).value.world)
    ensures Restart(rules, Run(rules, ops).value.world) == Ok(Run(rules, ops).value.world)
  {
    if ops == [] {
      EmptyWorldSound(rules);
    } else {
      RunRecovers(rules, ops[..|ops| - 1]);
      assert ops[|ops| - 1] in ops;
      StepDurable(rules, Run(rules, ops[..|ops| - 1]).value, ops[|ops| - 1]);
    }
    RestartRecovers(rules, Run(rules, ops).value.world);
  }

  lemma RunOneMore<S, E>(rules: Rules<S, E>, ops: seq<Op>, op: Op)
    requires Run(rules, ops).Ok?
    ensures Run(rules, ops + [op]) == Step(rules, Run(rules, ops).value, op)
  {
    assert (ops + [op])[..|ops|] == ops;
  }

  lemma RebootIdle<S, E>(rules: Rules<S, E>, ops: seq<Op>)
    requires ProperIdKey(rules.codec.idKey) && WellFormedOps(ops)
    ensures Run(rules, ops).Ok? && Run(rules, ops + [Reboot]) == Run(rules, ops)
  {
    RunRecovers(rules, ops);
    StepDurable(rules, Run(rules, ops).value, Reboot);
    RunOneMore(rules, ops, Reboot);
  }

  lemma SameRunStep<S, E>(rules: Rules<S, E>, a: seq<Op>, b: seq<Op>, op: Op)
    requires Run(rules, a).Ok? && Run(rules, b) == Run(rules, a)
    ensures Run(rules, b + [op]) == Run(rules, a + [op])
  {
    RunOneMore(rules, a, op);
    RunOneMore(rules, b, op);
  }

  /**
   * Every world that a run of any submissions reaches keeps the invariant, and it can be restarted exactly when every
   * logged envelope is well formed.
   */
  lemma {:induction false} RunSound<S, E>(rules: Rules<S, E>, ops: seq<Op>)
    requires ProperIdKey(rules.codec.idKey) && Run(rules, ops).Ok?
    ensures Sound(rules, Run(rules, ops).value.world)
    ensures Run(rules, ops + [Reboot]).Ok? <==> AllWellFormed(Run(rules, ops).value.world.log)
  {
    if ops == [] {
      EmptyWorldSound(rules);
    } else {
      hide Sound, Restart;
      RunSound(rules, ops[..|ops| - 1]);
      var w, op := Run(rules, ops[..|ops| - 1]).value.world, ops[|ops| - 1];
      if op.Reboot? {
        RestartRecovers(rules, w);
      } else {
        SubmitSound(rules, w, op.envelope, op.receivedAt, op.acceptedAt, op.diskOk);
      }
    }
    RestartRecovers(rules, Run(rules, ops).value.world);
    RunOneMore(rules, ops, Reboot);
  }

  ghost function WithoutReboots(ops: seq<Op>): seq<Op> {
    if ops == [] then []
    else
      var op := ops[|ops| - 1];
      WithoutReboots(ops[..|ops| - 1]) + (if op.Reboot? then [] else [op])
  }

  lemma InvisibleStep<S, E>(rules: Rules<S, E>, front: seq<Op>, clean: seq<Op>, op: Op)
    requires ProperIdKey(rules.codec.idKey) && WellFormedOps(front + [op])
    requires Run(rules, clean) == Run(rules, front)
    ensures Run(rules, front + [op]).Ok?
    ensures Run(rules, clean + (if op.Reboot? then [] else [op])) == Run(rules, front + [op])
  {
    assert forall o <- front :: o in front + [op];
    RebootIdle(rules, front);
    RebootIdle(rules, front + [op]);
    SameRunStep(rules, front, clean, op);
    assert clean + [] == clean;
  }

  /** Restarts are invisible: every reply, the live state, the log, and all publications are those without restarts. */
  lemma {:induction false} RestartsInvisible<S, E>(rules: Rules<S, E>, ops: seq<Op>)
    requires ProperIdKey(rules.codec.idKey) && WellFormedOps(ops)
    ensures Run(rules, ops).Ok? && Run(rules, WithoutReboots(ops)) == Run(rules, ops)
  {
    if ops != [] {
      var front, op := ops[..|ops| - 1], ops[|ops| - 1];
      RestartsInvisible(rules, front);
      assert ops == front + [op];
      InvisibleStep(rules, front, WithoutReboots(front), op);
    }
  }

  // ---- exactly once -------------------------------------------------------------------------

  ghost predicate AlreadyAccepted<S>(live: Runtime<S>, e: Envelope) {
    e.eventId in live.accepted && live.accepted[e.eventId] == e
  }

  /** An operation that may be repeated at will: a restart, a failed write, the re-send of an accepted event. */
  ghost predicate IsNoise<S, E>(rules: Rules<S, E>, before: seq<Op>, op: Op) {
    || op.Reboot?
    || !op.diskOk
    || (Run(rules, before).Ok? && AlreadyAccepted(Run(rules, before).value.world.live, op.envelope))
  }

  /** An operation of a run, and whether it was put in on top of what had to be done. */
  datatype Sent = Sent(op: Op, extra: bool)

  ghost function AllOps(sent: seq<Sent>): seq<Op> {
    if sent == [] then [] else AllOps(sent[..|sent| - 1]) + [sent[|sent| - 1].op]
  }

  ghost function CleanOps(sent: seq<Sent>): seq<Op> {
    if sent == [] then []
    else
      var last := sent[|sent| - 1];
      CleanOps(sent[..|sent| - 1]) + (if last.extra then [] else [last.op])
  }

  /** The replies of a run without those to extra submissions; restarts have no reply. */
  ghost function CleanReplies<S>(sent: seq<Sent>, replies: seq<Reply<S>>): seq<Reply<S>> {
    if sent == [] || replies == [] then []
    else
      var front, last, n := sent[..|sent| - 1], sent[|sent| - 1], |replies| - 1;
      if last.op.Reboot? then CleanReplies(front, replies)
      else CleanReplies(front, replies[..n]) + (if last.extra then [] else [replies[n]])
  }

  /** Every extra operation may be repeated at will where it stands. */
  ghost predicate ExtrasAreNoise<S, E>(rules: Rules<S, E>, sent: seq<Sent>) {
    sent != [] ==>
      var front, last := sent[..|sent| - 1], sent[|sent| - 1];
      ExtrasAreNoise(rules, front) && (last.extra ==> IsNoise(rules, AllOps(front), last.op))
  }

  lemma NoiseChangesNothing<S, E>(rules: Rules<S, E>, t: Trace<S>, op: Op)
    requires op.Submission? && (!op.diskOk || AlreadyAccepted(t.world.live, op.envelope))
    ensures Step(rules, t, op).Ok? && Step(rules, t, op).value.world == t.world
  {
  }

  /** One operation more, in both runs. */
  lemma BothOneMore<S, E>(rules: Rules<S, E>, front: seq<Sent>, last: Sent, t: Trace<S>, u: Trace<S>)
    requires Run(rules, AllOps(front)) == Ok(t) && Run(rules, CleanOps(front)) == Ok(u)
    ensures Run(rules, AllOps(front + [last])) == Step(rules, t, last.op)
    ensures Run(rules, CleanOps(front + [last])) == if last.extra then Ok(u) else Step(rules, u, last.op)
  {
    hide Step;
    assert (front + [last])[..|front|] == front;
    RunOneMore(rules, AllOps(front), last.op);
    RunOneMore(rules, CleanOps(front), last.op);
    assert CleanOps(front) + [] == CleanOps(front);
  }

  /** The last operation of a run, its reply, and what is left of it in the clean run. */
  lemma RepliesOneMore<S, E>(rules: Rules<S, E>, front: seq<Sent>, last: Sent, t: Trace<S>, u: Trace<S>, t': Trace<S>)
    requires t.world == u.world && u.replies == CleanReplies(front, t.replies)
    requires Step(rules, t, last.op) == Ok(t')
    ensures !last.extra ==> Step(rules, u, last.op).Ok? && Step(rules, u, last.op).value.world == t'.world
    ensures CleanReplies(front + [last], t'.replies)
         == if last.extra then u.replies else Step(rules, u, last.op).value.replies
  {
    hide Submit, Restart;
    assert (front + [last])[..|front|] == front;
    if last.op.Submission? {
      assert t'.replies[..|t.replies|] == t.replies;
      assert u.replies + [] == u.replies;
    }
  }

  /**
   * Exactly once: restarts, failed writes and re-sends of accepted events, inserted anywhere and any number of times,
   * leave the live state, the shards, the order and numbers of the records and the publications as they were, and the
   * other operations are answered as they were.
   */
  lemma {:induction false} ExactlyOnce<S, E>(rules: Rules<S, E>, sent: seq<Sent>)
    requires ProperIdKey(rules.codec.idKey) && WellFormedOps(AllOps(sent)) && ExtrasAreNoise(rules, sent)
    ensures Run(rules, AllOps(sent)).Ok? && Run(rules, CleanOps(sent)).Ok?
    ensures Run(rules, CleanOps(sent)).value.world == Run(rules, AllOps(sent)).value.world
    ensures Run(rules, CleanOps(sent)).value.replies == CleanReplies(sent, Run(rules, AllOps(sent)).value.replies)
  {
    if sent != [] {
      hide Step, Durable, WellFormed, AlreadyAccepted;
      var front, last := sent[..|sent| - 1], sent[|sent| - 1];
      assert sent == front + [last];
      assert last.op in AllOps(sent) && forall op <- AllOps(front) :: op in AllOps(sent);
      ExactlyOnce(rules, front);
      RunRecovers(rules, AllOps(front));
      var t, u := Run(rules, AllOps(front)).value, Run(rules, CleanOps(front)).value;
      StepDurable(rules, t, last.op);
      BothOneMore(rules, front, last, t, u);
      RepliesOneMore(rules, front, last, t, u, Step(rules, t, last.op).value);
      if last.extra && last.op.Submission? {
        NoiseChangesNothing(rules, t, last.op);
      }
    }
  }

  // ---- projection ---------------------------------------------------------------------------

  /** The state of one subject from its own records alone; an error if one does not apply. */
  ghost function Project<S, E>(rules: Rules<S, E>, own: seq<Record>): Result<S> {
    if own == [] then Ok(rules.empty)
    else
      var before :- Project(rules, own[..|own| - 1]);
      var event :- rules.codec.decode(own[|own| - 1].envelope);
      rules.apply(before, event)
  }

  lemma OwnOneMore(front: seq<Record>, r: Record, id: string)
    ensures Own(front + [r], id) == Own(front, id) + (if r.envelope.subject == id then [r] else [])
  {
    assert (front + [r])[..|front|] == front;
  }

  /** The event of r, applied to a state. */
  ghost function ApplyRecord<S, E>(rules: Rules<S, E>, s: S, r: Record): Result<S> {
    var event :- rules.codec.decode(r.envelope);
    rules.apply(s, event)
  }

  lemma ProjectOneMore<S, E>(rules: Rules<S, E>, own: seq<Record>, r: Record)
    ensures Project(rules, own + [r])
         == if Project(rules, own).Err? then Project(rules, own) else ApplyRecord(rules, Project(rules, own).value, r)
  {
    assert (own + [r])[..|own|] == own;
  }

  lemma ReplayApplies<S, E>(rules: Rules<S, E>, front: seq<Record>, r: Record)
    ensures var before, after := Replay(rules, front), Replay(rules, front + [r]);
            var s := ApplyRecord(rules, StateOf(rules, before.live.states, r.envelope.subject), r);
            && (after.error.None? <==> before.error.None? && s.Ok?)
            && (after.error.None? ==> after.live.states == before.live.states[r.envelope.subject := s.value])
  {
    assert (front + [r])[..|front|] == front;
  }

  lemma NothingProjects<S, E>(rules: Rules<S, E>, id: string)
    ensures Project(rules, Own([], id)) == Ok(StateOf(rules, Replay(rules, []).live.states, id))
    ensures id !in Replay(rules, []).live.states && Own([], id) == []
  {
  }

  lemma {:induction false} ReplayProjects<S, E>(rules: Rules<S, E>, log: seq<Record>, id: string)
    requires Replay(rules, log).error.None?
    ensures Project(rules, Own(log, id)) == Ok(StateOf(rules, Replay(rules, log).live.states, id))
    ensures id in Replay(rules, log).live.states <==> Own(log, id) != []
  {
    hide Replay, Project, Own, ApplyRecord;
    if log == [] {
      NothingProjects(rules, id);
    } else {
      var front, r := log[..|log| - 1], log[|log| - 1];
      assert log == front + [r];
      ReplayApplies(rules, front, r);
      ReplayProjects(rules, front, id);
      OwnOneMore(front, r, id);
      ProjectOneMore(rules, Own(front, id), r);
      assert Own(front, id) + [] == Own(front, id);
    }
  }

  ghost predicate AllProject<S, E>(rules: Rules<S, E>, log: seq<Record>) {
    forall id :: Project(rules, Own(log, id)).Ok?
  }

  lemma FrontProjects<S, E>(rules: Rules<S, E>, front: seq<Record>, r: Record)
    requires AllProject(rules, front + [r])
    ensures AllProject(rules, front)
  {
    forall id
      ensures Project(rules, Own(front, id)).Ok?
    {
      assert Project(rules, Own(front + [r], id)).Ok?;
      OwnOneMore(front, r, id);
      ProjectOneMore(rules, Own(front, id), r);
      assert Own(front, id) + [] == Own(front, id);
    }
  }

  lemma {:induction false} ProjectReplays<S, E>(rules: Rules<S, E>, log: seq<Record>)
    requires AllProject(rules, log)
    ensures Replay(rules, log).error.None?
  {
    if log != [] {
      var front, r := log[..|log| - 1], log[|log| - 1];
      var subject := r.envelope.subject;
      assert log == front + [r];
      FrontProjects(rules, front, r);
      ProjectReplays(rules, front);
      ReplayProjects(rules, front, subject);
      OwnOneMore(front, r, subject);
      ProjectOneMore(rules, Own(front, subject), r);
      assert Project(rules, Own(log, subject)).Ok?;
      ReplayApplies(rules, front, r);
    }
  }

  /** A log replays exactly when each subject's own records do; each state is the fold of the subject's own records. */
  lemma Projection<S, E>(rules: Rules<S, E>, log: seq<Record>)
    ensures Replay(rules, log).error.None? <==> AllProject(rules, log)
    ensures Replay(rules, log).error.None? ==>
      forall id :: Project(rules, Own(log, id)) == Ok(StateOf(rules, Replay(rules, log).live.states, id))
  {
    if Replay(rules, log).error.None? {
      forall id
        ensures Project(rules, Own(log, id)) == Ok(StateOf(rules, Replay(rules, log).live.states, id))
      {
        ReplayProjects(rules, log, id);
      }
    }
    if AllProject(rules, log) {
      ProjectReplays(rules, log);
    }
  }

  lemma {:induction false} ReplayFillsTable<S, E>(rules: Rules<S, E>, log: seq<Record>)
    requires Replay(rules, log).error.None? && DistinctEvents(log)
    ensures AcceptedTable(Replay(rules, log).live.accepted, log)
  {
    if log != [] {
      var front, r := log[..|log| - 1], log[|log| - 1];
      ReplayFillsTable(rules, front);
      assert log == front + [r];
      AcceptedExtended(Replay(rules, front).live.accepted, front, r);
    }
  }

  /** b keeps, for each subject, the order of the subject's records in a. */
  ghost predicate Interleaves(a: seq<Record>, b: seq<Record>) {
    forall id :: Own(a, id) == Own(b, id)
  }

  lemma InterleavedMember(a: seq<Record>, b: seq<Record>, r: Record)
    requires Interleaves(a, b)
    ensures r in a <==> r in b
  {
    OwnSubset(a, r.envelope.subject);
    OwnSubset(b, r.envelope.subject);
    assert Own(a, r.envelope.subject) == Own(b, r.envelope.subject);
  }

  lemma {:induction false} OwnAllInterleaved(a: seq<Record>, b: seq<Record>, ids: seq<string>)
    requires Interleaves(a, b)
    ensures OwnAll(a, ids) == OwnAll(b, ids)
  {
    if ids != [] {
      OwnAllInterleaved(a, b, ids[..|ids| - 1]);
      assert Own(a, ids[|ids| - 1]) == Own(b, ids[|ids| - 1]);
    }
  }

  lemma PermutesVia(a: seq<Record>, b: seq<Record>, ids: seq<string>)
    requires Interleaves(a, b) && Distinct(ids) && Covers(ids, a) && Covers(ids, b)
    ensures multiset(b) == multiset(a)
  {
    OwnAllCounts(a, ids);
    OwnAllCounts(b, ids);
    OwnInAll(a, set id <- ids);
    OwnInAll(b, set id <- ids);
    OwnAllInterleaved(a, b, ids);
  }

  /** An interleaving is a permutation. */
  lemma InterleavingPermutes(a: seq<Record>, b: seq<Record>)
    requires Interleaves(a, b)
    ensures multiset(b) == multiset(a)
  {
    var ids := SortedKeys(set r <- a :: r.envelope.subject);
    forall r <- b
      ensures r.envelope.subject in ids
    {
      InterleavedMember(a, b, r);
    }
    PermutesVia(a, b, ids);
  }

  lemma OnceInDistinct(a: seq<Record>, k: nat)
    requires DistinctEvents(a) && k < |a|
    ensures multiset(a)[a[k]] == 1
  {
    assert a == a[..k] + [a[k]] + a[k + 1..];
    assert a[k] !in a[..k] && a[k] !in a[k + 1..];
  }

  lemma TwiceInMultiset(b: seq<Record>, i: nat, j: nat)
    requires i < j < |b| && b[i] == b[j]
    ensures multiset(b)[b[i]] >= 2
  {
    assert b == b[..j] + b[j..];
    assert b[..j][i] == b[i] && b[j..][0] == b[i];
    assert b[i] in multiset(b[..j]) && b[i] in multiset(b[j..]);
  }

  lemma PermutationDistinct(a: seq<Record>, b: seq<Record>)
    requires multiset(a) == multiset(b) && DistinctEvents(a)
    ensures DistinctEvents(b)
  {
    forall i, j | 0 <= i < j < |b|
      ensures b[i].envelope.eventId != b[j].envelope.eventId
    {
      assert b[i] in multiset(a) && b[j] in multiset(a);
      var k :| 0 <= k < |a| && a[k] == b[i];
      var l :| 0 <= l < |a| && a[l] == b[j];
      if k == l {
        OnceInDistinct(a, k);
        TwiceInMultiset(b, i, j);
        assert false;
      }
    }
  }

  lemma SameTable(x: map<string, Envelope>, y: map<string, Envelope>, a: seq<Record>, b: seq<Record>)
    requires AcceptedTable(x, a) && AcceptedTable(y, b)
    requires forall r :: r in a <==> r in b
    ensures forall id | id in x :: id in y && y[id] == x[id]
  {
    forall id | id in x
      ensures id in y && y[id] == x[id]
    {
      var i :| 0 <= i < |a| && a[i].envelope.eventId == id;
      assert a[i] in b;
      var j :| 0 <= j < |b| && b[j] == a[i];
    }
  }

  lemma SameStates<S, E>(rules: Rules<S, E>, a: seq<Record>, b: seq<Record>)
    requires Interleaves(a, b) && Replay(rules, a).error.None? && Replay(rules, b).error.None?
    ensures Replay(rules, b).live.states == Replay(rules, a).live.states
  {
    var x, y := Replay(rules, a).live.states, Replay(rules, b).live.states;
    forall id
      ensures id in x <==> id in y
      ensures id in x ==> x[id] == y[id]
    {
      assert Own(a, id) == Own(b, id);
      ReplayProjects(rules, a, id);
      ReplayProjects(rules, b, id);
    }
  }

  /** Any interleaving that keeps the order within each subject rebuilds the same states and duplicate table. */
  lemma InterleavingsAgree<S, E>(rules: Rules<S, E>, a: seq<Record>, b: seq<Record>)
    requires Interleaves(a, b) && Replay(rules, a).error.None?
    requires DistinctEvents(a)
    ensures Replay(rules, b).error.None?
    ensures Replay(rules, b).live.states == Replay(rules, a).live.states
    ensures Replay(rules, b).live.accepted == Replay(rules, a).live.accepted
  {
    Projection(rules, a);
    forall id
      ensures Project(rules, Own(b, id)).Ok?
    {
      assert Own(a, id) == Own(b, id);
    }
    ProjectReplays(rules, b);
    SameStates(rules, a, b);
    InterleavingPermutes(a, b);
    PermutationDistinct(a, b);
    ReplayFillsTable(rules, a);
    ReplayFillsTable(rules, b);
    forall r
      ensures r in a <==> r in b
    {
      InterleavedMember(a, b, r);
    }
    SameTable(Replay(rules, a).live.accepted, Replay(rules, b).live.accepted, a, b);
    SameTable(Replay(rules, b).live.accepted, Replay(rules, a).live.accepted, b, a);
  }

  // ---- durable before visible ---------------------------------------------------------------

  /** The i-th publication is the i-th record, with the state that the log up to that record rebuilds. */
  lemma {:induction false} PublicationAt<S, E>(rules: Rules<S, E>, log: seq<Record>, i: nat)
    requires i < |log|
    ensures |Publications(rules, log)| == |log|
    ensures var e := log[i].envelope;
            Publications(rules, log)[i]
            == Publication(e, StateOf(rules, Replay(rules, log[..i + 1]).live.states, e.subject))
  {
    var front := log[..|log| - 1];
    if i < |front| {
      PublicationAt(rules, front, i);
      assert front[..i + 1] == log[..i + 1];
    } else {
      assert log[..i + 1] == log;
      if front != [] {
        PublicationAt(rules, front, 0);
      }
    }
  }

  /**
   * Over all runs: what was published is the log, record by record and in its order, each with the state that the log
   * up to that record rebuilds.
   */
  lemma DurableBeforeVisible<S, E>(rules: Rules<S, E>, ops: seq<Op>, i: nat)
    requires ProperIdKey(rules.codec.idKey) && Run(rules, ops).Ok?
    ensures var w := Run(rules, ops).value.world;
            && |w.published| == |w.log|
            && (i < |w.log| ==>
                  var e := w.log[i].envelope;
                  w.published[i]
                  == Publication(e, StateOf(rules, Replay(rules, w.log[..i + 1]).live.states, e.subject)))
  {
    RunSound(rules, ops);
    var w := Run(rules, ops).value.world;
    if i < |w.log| {
      PublicationAt(rules, w.log, i);
    } else if w.log != [] {
      PublicationAt(rules, w.log, 0);
    }
  }

  /**
   * Over all runs: acceptance numbers are 1, 2, ..., event ids never repeat, each source's sequences increase, and
   * the sequence table holds the last and greatest sequence of each source.
   */
  lemma SequenceDiscipline<S, E>(rules: Rules<S, E>, ops: seq<Op>)
    requires ProperIdKey(rules.codec.idKey)
    ensures WellFormedOps(ops) ==> Run(rules, ops).Ok?
    ensures Run(rules, ops).Ok? ==>
            var w := Run(rules, ops).value.world;
            && Numbered(w.log) && w.live.acceptance == |w.log|
            && Disciplined(w.log)
            && (forall i | 0 <= i < |w.log| ::
                  w.log[i].envelope.sourceId in w.live.latest
                  && w.log[i].envelope.sequence <= w.live.latest[w.log[i].envelope.sourceId])
            && (forall source | source in w.live.latest ::
                  exists i :: LastOfSource(w.log, i, source) && w.log[i].envelope.sequence == w.live.latest[source])
  {
    if WellFormedOps(ops) {
      RunRecovers(rules, ops);
    }
    if Run(rules, ops).Ok? {
      RunSound(rules, ops);
    }
  }
}
