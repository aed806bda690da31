/** Processes that die between the append to the log and the commit. */
module Crashes {
  import opened Basics
  import opened Wire
  import opened EventSourcing
  import opened Recovery

  /** An operation that ends as it should, or a submission whose process dies right after the append and is replaced. */
  datatype Turn =
    | Ordinary(op: Op)
    | Crash(envelope: Envelope, receivedAt: int, acceptedAt: int)

  /** A world, and the positions in its log of the records that were never published. */
  datatype Survivor<S> = Survivor(world: World<S>, silent: set<nat>)

  /** What the dying process leaves on the disk: the record, if the event was admitted. */
  function Left<S, E>(rules: Rules<S, E>, s: Survivor<S>, e: Envelope, receivedAt: int, acceptedAt: int): Survivor<S> {
    match Judge(rules, s.world.live, e)
    case Admit(_) =>
      var r := Record(e, receivedAt, acceptedAt, s.world.live.acceptance + 1);
      Survivor(s.world.(shards := Appended(Printer(rules.codec.idKey), s.world.shards, r), log := s.world.log + [r]),
               s.silent + {|s.world.log|})
    case _ => s
  }

  function TakeTurn<S, E>(rules: Rules<S, E>, s: Survivor<S>, turn: Turn): Result<Survivor<S>> {
    match turn
    case Ordinary(op) =>
      var t :- Step(rules, Trace(s.world, []), op);
      Ok(Survivor(t.world, s.silent))
    case Crash(e, receivedAt, acceptedAt) =>
      var left := Left(rules, s, e, receivedAt, acceptedAt);
      var w :- Restart(rules, left.world);
      Ok(Survivor(w, left.silent))
  }

  /** A run from an empty disk in which processes may die between append and commit. */
  function CrashRun<S, E>(rules: Rules<S, E>, turns: seq<Turn>): Result<Survivor<S>> {
    if turns == [] then Ok(Survivor(EmptyWorld(), {}))
    else
      var before :- CrashRun(rules, turns[..|turns| - 1]);
      TakeTurn(rules, before, turns[|turns| - 1])
  }

  /** The turn without the crash. */
  function Spared(turn: Turn): Op {
    match turn
    case Ordinary(op) => op
    case Crash(e, receivedAt, acceptedAt) => Submission(e, receivedAt, acceptedAt, true)
  }

  function AllSpared(turns: seq<Turn>): seq<Op> {
    if turns == [] then [] else AllSpared(turns[..|turns| - 1]) + [Spared(turns[|turns| - 1])]
  }

  /** What was published, without the positions in silent. */
  ghost function Heard<S>(published: seq<Publication<S>>, silent: set<nat>): seq<Publication<S>> {
    if published == [] then []
    else
      var n := |published| - 1;
      Heard(published[..n], silent) + (if n in silent then [] else [published[n]])
  }

  ghost predicate WellFormedTurns(turns: seq<Turn>) {
    forall turn <- turns :: Spared(turn).Submission? ==> WellFormed(Spared(turn).envelope)
  }

  /** The survivor differs from the spared world in that nobody heard of the silent records. */
  ghost predicate SurvivesAs<S>(s: Survivor<S>, w: World<S>) {
    && s.world == w.(published := s.world.published)
    && s.world.published == Heard(w.published, s.silent)
    && |w.published| == |w.log|
    && forall i <- s.silent :: i < |w.log|
  }

  lemma {:induction false} HeardWithin<S>(published: seq<Publication<S>>, silent: set<nat>, more: set<nat>)
    requires forall i <- more :: i >= |published|
    ensures Heard(published, silent + more) == Heard(published, silent)
  {
    if published != [] {
      HeardWithin(published[..|published| - 1], silent, more);
    }
  }

  lemma HeardOneMore<S>(published: seq<Publication<S>>, silent: set<nat>, p: Publication<S>)
    requires |published| !in silent
    ensures Heard(published + [p], silent) == Heard(published, silent) + [p]
  {
    assert (published + [p])[..|published|] == published;
  }

  lemma HeardOneLess<S>(published: seq<Publication<S>>, silent: set<nat>, p: Publication<S>)
    ensures Heard(published + [p], silent + {|published|}) == Heard(published, silent)
  {
    assert (published + [p])[..|published|] == published;
    HeardWithin(published, silent, {|published|});
    assert Heard(published, silent) + [] == Heard(published, silent);
  }

  /** A restart sees only the disk. */
  lemma RestartSeesDisk<S, E>(rules: Rules<S, E>, u: World<S>, v: World<S>)
    requires u.shards == v.shards && Restart(rules, v) == Ok(v)
    ensures Restart(rules, u) == Ok(u.(live := v.live))
  {
  }

  lemma OrdinaryTurn<S, E>(rules: Rules<S, E>, s: Survivor<S>, w: World<S>, op: Op)
    requires ProperIdKey(rules.codec.idKey) && Durable(rules, w) && SurvivesAs(s, w)
    requires op.Submission? ==> WellFormed(op.envelope)
    ensures TakeTurn(rules, s, Ordinary(op)).Ok? && Step(rules, Trace(w, []), op).Ok?
    ensures SurvivesAs(TakeTurn(rules, s, Ordinary(op)).value, Step(rules, Trace(w, []), op).value.world)
  {
    hide Sound, AllWellFormed, Restart, Judge, Absorb, Appended, Heard, WellFormed;
    match op {
      case Reboot =>
        RestartRecovers(rules, w);
        RestartSeesDisk(rules, s.world, w);
      case Submission(e, receivedAt, acceptedAt, diskOk) =>
        match Judge(rules, w.live, e) {
          case Admit(after) => HeardOneMore(w.published, s.silent, Publication(e, after));
          case _ =>
        }
    }
  }

  lemma CrashTurn<S, E>(rules: Rules<S, E>, s: Survivor<S>, w: World<S>, e: Envelope, receivedAt: int, acceptedAt: int)
    requires ProperIdKey(rules.codec.idKey) && Durable(rules, w) && SurvivesAs(s, w) && WellFormed(e)
    ensures TakeTurn(rules, s, Crash(e, receivedAt, acceptedAt)).Ok?
    ensures SurvivesAs(TakeTurn(rules, s, Crash(e, receivedAt, acceptedAt)).value,
                       Submit(rules, w, e, receivedAt, acceptedAt, true).0)
  {
    hide Sound, AllWellFormed, Restart, Judge, Absorb, Appended, Heard, WellFormed;
    var w' := Submit(rules, w, e, receivedAt, acceptedAt, true).0;
    StepDurable(rules, Trace(w, []), Submission(e, receivedAt, acceptedAt, true));
    RestartRecovers(rules, w');
    RestartSeesDisk(rules, Left(rules, s, e, receivedAt, acceptedAt).world, w');
    match Judge(rules, w.live, e) {
      case Admit(after) => HeardOneLess(w.published, s.silent, Publication(e, after));
      case _ =>
    }
  }

  lemma SparedOneMore<S, E>(rules: Rules<S, E>, turns: seq<Turn>, w: World<S>, replies: seq<Reply<S>>)
    requires turns != []
    requires Run(rules, AllSpared(turns[..|turns| - 1])) == Ok(Trace(w, replies))
    ensures Run(rules, AllSpared(turns)) == Step(rules, Trace(w, replies), Spared(turns[|turns| - 1]))
  {
    hide Step;
    RunOneMore(rules, AllSpared(turns[..|turns| - 1]), Spared(turns[|turns| - 1]));
  }

  lemma StepWorld<S, E>(rules: Rules<S, E>, t: Trace<S>, op: Op)
    ensures Step(rules, t, op).Ok? <==> Step(rules, Trace(t.world, []), op).Ok?
    ensures Step(rules, t, op).Ok? ==> Step(rules, t, op).value.world == Step(rules, Trace(t.world, []), op).value.world
  {
    hide Submit, Restart;
  }

  /**
   * Dying between append and commit is harmless: any run with such deaths and restarts ends in the world of the run
   * in which these submissions came to their end, so nothing is lost or counted twice; all that is missing is the
   * publication of the records that were appended by a dying process.
   */
  lemma {:induction false} CrashesAreSubmissions<S, E>(rules: Rules<S, E>, turns: seq<Turn>)
    requires ProperIdKey(rules.codec.idKey) && WellFormedTurns(turns)
    ensures CrashRun(rules, turns).Ok? && Run(rules, AllSpared(turns)).Ok?
    ensures SurvivesAs(CrashRun(rules, turns).value, Run(rules, AllSpared(turns)).value.world)
    ensures Durable(rules, Run(rules, AllSpared(turns)).value.world)
  {
    if turns != [] {
      hide Durable, SurvivesAs, TakeTurn, Step, WellFormed;
      var front, turn := turns[..|turns| - 1], turns[|turns| - 1];
      assert turn in turns;
      CrashesAreSubmissions(rules, front);
      var s, t := CrashRun(rules, front).value, Run(rules, AllSpared(front)).value;
      SparedOneMore(rules, turns, t.world, t.replies);
      StepDurable(rules, t, Spared(turn));
      StepWorld(rules, t, Spared(turn));
      match turn {
        case Ordinary(op) => OrdinaryTurn(rules, s, t.world, op);
        case Crash(e, receivedAt, acceptedAt) =>
          CrashTurn(rules, s, t.world, e, receivedAt, acceptedAt);
          SubmissionStep(rules, t.world, e, receivedAt, acceptedAt);
      }
    } else {
      EmptyWorldSound(rules);
    }
  }

  lemma SubmissionStep<S, E>(rules: Rules<S, E>, w: World<S>, e: Envelope, receivedAt: int, acceptedAt: int)
    ensures var next := Step(rules, Trace(w, []), Submission(e, receivedAt, acceptedAt, true));
            next.Ok? && next.value.world == Submit(rules, w, e, receivedAt, acceptedAt, true).0
  {
    hide Submit;
  }

  /**
   * An event whose process died after the append is durable although nobody was told: the next process has it in its
   * log and state, has not published it, and answers its re-send as a duplicate without doing anything.
   */
  lemma CrashedEventStays<S, E>(rules: Rules<S, E>, turns: seq<Turn>, e: Envelope, receivedAt: int, acceptedAt: int,
                                after: S, again: Op)
    requires ProperIdKey(rules.codec.idKey) && WellFormedTurns(turns) && WellFormed(e)
    requires CrashRun(rules, turns).Ok? && Judge(rules, CrashRun(rules, turns).value.world.live, e) == Admit(after)
    requires again.Submission? && again.envelope == e
    ensures var before := CrashRun(rules, turns).value;
            var next := TakeTurn(rules, before, Crash(e, receivedAt, acceptedAt));
            && next.Ok?
            && next.value.world.log
               == before.world.log + [Record(e, receivedAt, acceptedAt, before.world.live.acceptance + 1)]
            && next.value.world.live.states == before.world.live.states[e.subject := after]
            && next.value.world.published == before.world.published
            && Submit(rules, next.value.world, e, again.receivedAt, again.acceptedAt, again.diskOk)
               == (next.value.world, Reply(Duplicate, after, None))
  {
    hide Sound, AllWellFormed, Heard, WellFormed, Restart, ApplyToState;
    CrashesAreSubmissions(rules, turns);
    var s, w := CrashRun(rules, turns).value, Run(rules, AllSpared(turns)).value.world;
    CrashTurn(rules, s, w, e, receivedAt, acceptedAt);
    var w' := Submit(rules, w, e, receivedAt, acceptedAt, true).0;
    assert w'.published == w.published + [Publication(e, after)];
    HeardOneLess(w.published, s.silent, Publication(e, after));
    DuplicateOfAccepted(rules, TakeTurn(rules, s, Crash(e, receivedAt, acceptedAt)).value.world, after, again);
  }

  lemma DuplicateOfAccepted<S, E>(rules: Rules<S, E>, w: World<S>, after: S, again: Op)
    requires again.Submission? && AlreadyAccepted(w.live, again.envelope)
    requires again.envelope.subject in w.live.states && w.live.states[again.envelope.subject] == after
    ensures Submit(rules, w, again.envelope, again.receivedAt, again.acceptedAt, again.diskOk)
         == (w, Reply(Duplicate, after, None))
  {
  }
}
