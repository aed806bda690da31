/** Resuming the bootstrap of a battle while other clients keep submitting and the process restarts. */
module Traffic {
  import opened Basics
  import opened Ordering
  import opened Wire
  import opened EventSourcing
  import opened EventLog
  import opened Recovery
  import opened Batch
  import opened Bootstrap
  import opened BootstrapTheorems
  import ApRuntime
  import Room

  // ---- what one client sees -----------------------------------------------------------------

  /** What a client depends on: one subject, one source, and the ids of its events. */
  datatype Client = Client(subject: string, source: string, ids: set<string>)

  ghost predicate Mine(c: Client, e: Envelope) {
    e.subject == c.subject && e.sourceId == c.source && e.eventId in c.ids
  }

  ghost predicate Foreign(c: Client, e: Envelope) {
    e.subject != c.subject && e.sourceId != c.source && e.eventId !in c.ids
  }

  ghost predicate SameAt<V>(a: map<string, V>, b: map<string, V>, key: string) {
    (key in a <==> key in b) && (key in a ==> a[key] == b[key])
  }

  ghost predicate SameLive<S>(c: Client, u: EventSourcing.Runtime<S>, v: EventSourcing.Runtime<S>) {
    && SameAt(u.states, v.states, c.subject)
    && SameAt(u.latest, v.latest, c.source)
    && forall id | id in c.ids :: SameAt(u.accepted, v.accepted, id)
  }

  /** The two worlds look the same to the client: same state, same events accepted, same records in the same order. */
  ghost predicate SameFor<S>(c: Client, u: World<S>, v: World<S>) {
    && SameLive(c, u.live, v.live)
    && Envelopes(Own(u.log, c.subject)) == Envelopes(Own(v.log, c.subject))
  }

  lemma OwnEnvelopesOneMore(log: seq<Record>, r: Record, id: string)
    ensures Envelopes(Own(log + [r], id))
         == Envelopes(Own(log, id)) + (if r.envelope.subject == id then [r.envelope] else [])
  {
    OwnOneMore(log, r, id);
    EnvelopesOneMore(Own(log, id), r);
    assert Own(log, id) + [] == Own(log, id);
  }

  lemma SameJudgement<S, E>(rules: Rules<S, E>, c: Client, u: EventSourcing.Runtime<S>, v: EventSourcing.Runtime<S>,
                            e: Envelope)
    requires SameLive(c, u, v) && Mine(c, e)
    ensures Judge(rules, v, e) == Judge(rules, u, e)
    ensures StateOf(rules, v.states, e.subject) == StateOf(rules, u.states, e.subject)
  {
    assert SameAt(u.accepted, v.accepted, e.eventId);
  }

  lemma SameAbsorbed<S>(c: Client, u: EventSourcing.Runtime<S>, v: EventSourcing.Runtime<S>, r: Record, r': Record,
                        s: S)
    requires SameLive(c, u, v) && r.envelope == r'.envelope
    ensures SameLive(c, Absorb(u, r, s), Absorb(v, r', s))
  {
    forall id | id in c.ids
      ensures SameAt(Absorb(u, r, s).accepted, Absorb(v, r', s).accepted, id)
    {
      assert SameAt(u.accepted, v.accepted, id);
    }
  }

  /** The client's own event has the same outcome in worlds that look the same to it. */
  lemma SameSubmit<S, E>(rules: Rules<S, E>, c: Client, u: World<S>, v: World<S>, e: Envelope, io: Io, io': Io)
    requires SameFor(c, u, v) && Mine(c, e)
    requires io'.diskOk && (io.diskOk || Passed(SubmitIo(rules, u, e, io).1))
    ensures SubmitIo(rules, v, e, io').1 == SubmitIo(rules, u, e, io).1
    ensures SameFor(c, SubmitIo(rules, u, e, io).0, SubmitIo(rules, v, e, io').0)
  {
    hide Judge, SameLive, Absorb, Appended, Own, Envelopes;
    SameJudgement(rules, c, u.live, v.live, e);
    match Judge(rules, u.live, e) {
      case Admit(after) =>
        var r := Record(e, io.receivedAt, io.acceptedAt, u.live.acceptance + 1);
        var r' := Record(e, io'.receivedAt, io'.acceptedAt, v.live.acceptance + 1);
        SameAbsorbed(c, u.live, v.live, r, r', after);
        OwnEnvelopesOneMore(u.log, r, c.subject);
        OwnEnvelopesOneMore(v.log, r', c.subject);
      case _ =>
    }
  }

  /** A foreign event changes nothing for the client. */
  lemma ForeignSubmit<S, E>(rules: Rules<S, E>, c: Client, w: World<S>, e: Envelope, io: Io)
    requires Foreign(c, e)
    ensures SameFor(c, w, SubmitIo(rules, w, e, io).0)
  {
    hide Judge, Appended, Own, Envelopes;
    match Judge(rules, w.live, e) {
      case Admit(after) =>
        var r := Record(e, io.receivedAt, io.acceptedAt, w.live.acceptance + 1);
        OwnEnvelopesOneMore(w.log, r, c.subject);
      case _ =>
    }
  }

  lemma SameForAll<S>(c: Client, u: World<S>, v: World<S>, x: World<S>)
    requires SameFor(c, u, v) && SameFor(c, v, x)
    ensures SameFor(c, u, x)
  {
    forall id | id in c.ids
      ensures SameAt(u.live.accepted, x.live.accepted, id)
    {
      assert SameAt(u.live.accepted, v.live.accepted, id) && SameAt(v.live.accepted, x.live.accepted, id);
    }
  }

  lemma SameForBack<S>(c: Client, u: World<S>, v: World<S>)
    requires SameFor(c, u, v)
    ensures SameFor(c, v, u)
  {
    forall id | id in c.ids
      ensures SameAt(v.live.accepted, u.live.accepted, id)
    {
      assert SameAt(u.live.accepted, v.live.accepted, id);
    }
  }

  lemma {:induction false} SameList<S, E>(rules: Rules<S, E>, c: Client, u: World<S>, v: World<S>,
                                          plan: seq<Envelope>, ios: seq<Io>, ios': seq<Io>)
    requires |plan| == |ios| == |ios'| && SameFor(c, u, v) && DisksOk(ios')
    requires DisksOk(ios) || SubmitAll(rules, u, plan, ios).1.None?
    requires forall e <- plan :: Mine(c, e)
    ensures SubmitAll(rules, v, plan, ios').1 == SubmitAll(rules, u, plan, ios).1
    ensures SameFor(c, SubmitAll(rules, u, plan, ios).0, SubmitAll(rules, v, plan, ios').0)
  {
    if plan != [] {
      hide SubmitIo, SameFor, Mine;
      var n := |plan| - 1;
      SameList(rules, c, u, v, plan[..n], ios[..n], ios'[..n]);
      var u', v' := SubmitAll(rules, u, plan[..n], ios[..n]), SubmitAll(rules, v, plan[..n], ios'[..n]);
      if u'.1.None? {
        if !Passed(SubmitIo(rules, u'.0, plan[n], ios[n]).1) {
          RefusedUnchanged(rules, u'.0, plan[n], ios[n]);
          assert ios[n] in ios;
        }
        SameSubmit(rules, c, u'.0, v'.0, plan[n], ios[n], ios'[n]);
      }
    }
  }

  // ---- the traffic of others ----------------------------------------------------------------

  ghost predicate ForeignOps(c: Client, ops: seq<Op>) {
    forall op <- ops :: op.Submission? ==> WellFormed(op.envelope) && Foreign(c, op.envelope)
  }

  /** The world after further operations; an error if a restart fails. */
  function Continue<S, E>(rules: Rules<S, E>, w: World<S>, ops: seq<Op>): Result<World<S>> {
    if ops == [] then Ok(w)
    else
      var before :- Continue(rules, w, ops[..|ops| - 1]);
      var t :- Step(rules, Trace(before, []), ops[|ops| - 1]);
      Ok(t.world)
  }

  lemma AnyStep<S, E>(rules: Rules<S, E>, w: World<S>, op: Op, mine: seq<Envelope>)
    requires ProperIdKey(rules.codec.idKey) && Durable(rules, w) && WellFormedOps([op])
    requires forall e <- mine :: AlreadyAccepted(w.live, e)
    ensures Step(rules, Trace(w, []), op).Ok?
    ensures var after := Step(rules, Trace(w, []), op).value.world;
            Durable(rules, after) && forall e <- mine :: AlreadyAccepted(after.live, e)
  {
    hide Sound, AllWellFormed, Restart, AlreadyAccepted;
    assert op in [op];
    StepDurable(rules, Trace(w, []), op);
    if op.Submission? {
      forall e <- mine
        ensures AlreadyAccepted(Step(rules, Trace(w, []), op).value.world.live, e)
      {
        AcceptedStays(rules, w, op.envelope, Io(op.receivedAt, op.acceptedAt, op.diskOk), e);
      }
    }
  }

  /** Whatever happens later, restarts among it, accepted events stay accepted and the world stays recoverable. */
  lemma {:induction false} AnyTraffic<S, E>(rules: Rules<S, E>, w: World<S>, ops: seq<Op>, mine: seq<Envelope>)
    requires ProperIdKey(rules.codec.idKey) && Durable(rules, w) && WellFormedOps(ops)
    requires forall e <- mine :: AlreadyAccepted(w.live, e)
    ensures Continue(rules, w, ops).Ok?
    ensures var after := Continue(rules, w, ops).value;
            Durable(rules, after) && forall e <- mine :: AlreadyAccepted(after.live, e)
  {
    hide Durable, Step, AlreadyAccepted;
    if ops != [] {
      var n := |ops| - 1;
      AnyTraffic(rules, w, ops[..n], mine);
      assert ops[n] in ops;
      AnyStep(rules, Continue(rules, w, ops[..n]).value, ops[n], mine);
    }
  }

  lemma SameSelf<S>(c: Client, w: World<S>)
    ensures SameFor(c, w, w)
  {
  }

  lemma ForeignStep<S, E>(rules: Rules<S, E>, c: Client, w: World<S>, op: Op)
    requires ProperIdKey(rules.codec.idKey) && Durable(rules, w) && ForeignOps(c, [op])
    requires Step(rules, Trace(w, []), op).Ok?
    ensures SameFor(c, w, Step(rules, Trace(w, []), op).value.world)
  {
    hide Sound, AllWellFormed, Restart, SameFor;
    assert op in [op];
    match op {
      case Reboot =>
        StepDurable(rules, Trace(w, []), op);
        SameSelf(c, w);
      case Submission(e, receivedAt, acceptedAt, diskOk) =>
        ForeignSubmit(rules, c, w, e, Io(receivedAt, acceptedAt, diskOk));
    }
  }

  /** Foreign operations, restarts among them, change nothing for the client. */
  lemma {:induction false} ForeignTraffic<S, E>(rules: Rules<S, E>, c: Client, w: World<S>, ops: seq<Op>)
    requires ProperIdKey(rules.codec.idKey) && Durable(rules, w) && ForeignOps(c, ops)
    ensures Continue(rules, w, ops).Ok? && SameFor(c, w, Continue(rules, w, ops).value)
  {
    AnyTraffic(rules, w, ops, []);
    if ops == [] {
      SameSelf(c, w);
    } else {
      hide Durable, Step, SameFor;
      var n := |ops| - 1;
      ForeignTraffic(rules, c, w, ops[..n]);
      AnyTraffic(rules, w, ops[..n], []);
      var before := Continue(rules, w, ops[..n]).value;
      assert ops[n] in ops;
      ForeignStep(rules, c, before, ops[n]);
      SameForAll(c, w, before, Continue(rules, w, ops).value);
    }
  }

  // ---- resuming -----------------------------------------------------------------------------

  /** A list that stopped is finished by a second attempt, whatever foreign operations came in between. */
  lemma ResumableAmidTraffic<S, E>(rules: Rules<S, E>, c: Client, w: World<S>, plan: seq<Envelope>, first: seq<Io>,
                                   ops: seq<Op>, second: seq<Io>, only: seq<Io>)
    requires |plan| == |first| == |second| == |only| && DisksOk(second) && DisksOk(only)
    requires ProperIdKey(rules.codec.idKey) && Durable(rules, w) && ForeignOps(c, ops)
    requires forall e <- plan :: Mine(c, e) && WellFormed(e)
    ensures var stopped, clean := SubmitAll(rules, w, plan, first).0, SubmitAll(rules, w, plan, only);
            && Continue(rules, stopped, ops).Ok?
            && var resumed := SubmitAll(rules, Continue(rules, stopped, ops).value, plan, second);
               resumed.1 == clean.1 && SameFor(c, clean.0, resumed.0)
  {
    hide SubmitAll, Durable, Mine, WellFormed, SameFor, AlreadyAccepted;
    var k := StopPoint(rules, w, plan, first);
    var done, rest := plan[..k], plan[k..];
    assert plan == done + rest;
    assert second == second[..k] + second[k..] && only == only[..k] + only[k..];
    var stopped, clean := SubmitAll(rules, w, plan, first).0, SubmitAll(rules, w, done, only[..k]).0;
    AllDurable(rules, w, plan, first);
    AllAccepted(rules, w, done, first[..k]);
    AnyTraffic(rules, stopped, ops, done);
    ForeignTraffic(rules, c, stopped, ops);
    var busy := Continue(rules, stopped, ops).value;
    AllAgain(rules, busy, done, second[..k]);
    AllConcat(rules, busy, done, second[..k], rest, second[k..]);
    SameSelf(c, w);
    SameList(rules, c, w, w, done, first[..k], only[..k]);
    SameForBack(c, stopped, clean);
    SameForAll(c, clean, stopped, busy);
    AllConcat(rules, w, done, only[..k], rest, only[k..]);
    SameList(rules, c, clean, busy, rest, only[k..], second[k..]);
  }

  /** The bootstrap as a client: the room's battle, the bootstrap source, and the ids of the planned events. */
  ghost function Starter(room: Room.RoomState): Client
    requires room.battleId.Some?
  {
    Client(room.battleId.value, SOURCE, (set p | p in room.players :: JoinId(room, p)) + {StartId(room)})
  }

  lemma PlanIsMine(room: Room.RoomState, at: int, duration: int)
    requires Started(room)
    ensures forall e <- Plan(room, at, duration) :: Mine(Starter(room), e) && WellFormed(e)
  {
    hide SortedKeys, Plan, JoinId, StartId, WellFormed;
    PlanShape(room, at, duration);
    var plan := Plan(room, at, duration);
    forall e <- plan
      ensures Mine(Starter(room), e) && WellFormed(e)
    {
      var i :| 0 <= i < |plan| && plan[i] == e;
      assert PlannedEvent(room, i, plan[i]);
      if i < |PlayerOrder(room)| {
        OneMorePlayer(room, i);
      }
    }
  }

  /**
   * A bootstrap that stopped anywhere on a failing disk is finished by a second call with the same arguments, whatever
   * was submitted for other battles by other sources in between and however often the process restarted: the battle
   * and its records, in their order, are those of one uninterrupted call, and so is the outcome.
   */
  lemma StartResumesAmidTraffic(w: BattleWorld, room: Room.RoomState, at: int, duration: int, first: seq<Io>,
                                ops: seq<Op>, second: seq<Io>, only: seq<Io>)
    requires Started(room) && |first| == |second| == |only| == |room.players| + 1
    requires DisksOk(second) && DisksOk(only) && Durable(ApRuntime.BattleRules(), w)
    requires ForeignOps(Starter(room), ops)
    ensures var stopped, clean := Start(w, room, at, duration, first).0, Start(w, room, at, duration, only);
            && Continue(ApRuntime.BattleRules(), stopped, ops).Ok?
            && var resumed := Start(Continue(ApRuntime.BattleRules(), stopped, ops).value, room, at, duration, second);
               resumed.1 == clean.1 && SameFor(Starter(room), clean.0, resumed.0)
  {
    hide SubmitAll, Plan, Continue, SameFor, ApRuntime.BattleRules, Mine, WellFormed, Durable, Starter;
    PlanShape(room, at, duration);
    PlanIsMine(room, at, duration);
    BattleKeyProper();
    ResumableAmidTraffic(ApRuntime.BattleRules(), Starter(room), w, Plan(room, at, duration), first, ops, second, only);
  }

  /**
   * Calling the bootstrap again at any time after it went through changes nothing, whatever was submitted since, also
   * to the same battle and by the same source, and however often the process restarted.
   */
  lemma StartIdempotent(w: BattleWorld, room: Room.RoomState, at: int, duration: int, first: seq<Io>, ops: seq<Op>,
                        again: seq<Io>)
    requires Started(room) && |first| == |again| == |room.players| + 1 && Durable(ApRuntime.BattleRules(), w)
    requires Start(w, room, at, duration, first).1.None? && WellFormedOps(ops)
    ensures var later := Continue(ApRuntime.BattleRules(), Start(w, room, at, duration, first).0, ops);
            later.Ok? && Start(later.value, room, at, duration, again) == (later.value, None)
  {
    hide SubmitAll, Plan, Continue, ApRuntime.BattleRules, WellFormed, Durable, AlreadyAccepted;
    var plan := Plan(room, at, duration);
    PlanShape(room, at, duration);
    PlanIsMine(room, at, duration);
    BattleKeyProper();
    AllDurable(ApRuntime.BattleRules(), w, plan, first);
    AllAccepted(ApRuntime.BattleRules(), w, plan, first);
    var after := Start(w, room, at, duration, first).0;
    AnyTraffic(ApRuntime.BattleRules(), after, ops, plan);
    AllAgain(ApRuntime.BattleRules(), Continue(ApRuntime.BattleRules(), after, ops).value, plan, again);
  }

  lemma AcceptedTakesSource(w: BattleWorld, e: Envelope)
    requires Sound(ApRuntime.BattleRules(), w) && AlreadyAccepted(w.live, e)
    requires e.sourceId == SOURCE && e.sequence > 0
    ensures !SourceUnused(w.live)
  {
    hide LogSound, ApRuntime.BattleRules;
    var i :| 0 <= i < |w.log| && w.log[i].envelope.eventId == e.eventId;
  }

  /** After one room's battle was started, that of any room whose first event is not accepted is refused for good. */
  lemma NextRoomRefused(w: BattleWorld, room: Room.RoomState, at: int, duration: int, ios: seq<Io>, ops: seq<Op>,
                        next: Room.RoomState, nextAt: int, nextDuration: int, nextIos: seq<Io>)
    requires Started(room) && |ios| == |room.players| + 1 && Durable(ApRuntime.BattleRules(), w)
    requires Start(w, room, at, duration, ios).1.None? && WellFormedOps(ops)
    requires Started(next) && |nextIos| == |next.players| + 1
    ensures var later := Continue(ApRuntime.BattleRules(), Start(w, room, at, duration, ios).0, ops);
            && later.Ok?
            && (!AlreadyAccepted(later.value.live, Plan(next, nextAt, nextDuration)[0]) ==>
                  Start(later.value, next, nextAt, nextDuration, nextIos) == (later.value, Some(Conflict)))
  {
    hide SubmitAll, Plan, Continue, ApRuntime.BattleRules, WellFormed, Sound, AlreadyAccepted, JoinId, StartId,
      Ordering.SortedKeys, SourceUnused;
    var plan := Plan(room, at, duration);
    PlanShape(room, at, duration);
    PlanIsMine(room, at, duration);
    BattleKeyProper();
    AllDurable(ApRuntime.BattleRules(), w, plan, ios);
    AllAccepted(ApRuntime.BattleRules(), w, plan, ios);
    var after := Start(w, room, at, duration, ios).0;
    AnyTraffic(ApRuntime.BattleRules(), after, ops, plan);
    var later := Continue(ApRuntime.BattleRules(), after, ops).value;
    assert PlannedEvent(room, 0, plan[0]);
    AcceptedTakesSource(later, plan[0]);
    if !AlreadyAccepted(later.live, Plan(next, nextAt, nextDuration)[0]) {
      hide Start;
      SourceTaken(later, next, nextAt, nextDuration, nextIos);
    }
  }
}
