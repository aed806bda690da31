/**
 * A battle is what its history says: phase, times, ammunition and health are fixed by the last events that concern
 * them, and the history alone decides whether an event is accepted.
 */
module BattleHistory {
  import opened Basics
  import opened History
  import opened Battle
  import opened BattleProtocol
  import opened BattleTheorems

  // ---- what events write --------------------------------------------------------------------

  function PhaseIn(): BattleEvent -> Option<Phase> {
    (e: BattleEvent) =>
      match e
      case BattleStarted(_, _, _, _, _) => Some(Active)
      case BattlePaused(_, _, _, _) => Some(Paused)
      case BattleResumed(_, _, _) => Some(Active)
      case BattleEnded(_, _, _, _) => Some(Ended)
      case _ => None
  }

  /** The phase after the events, for a battle that was in the given phase before. */
  ghost function PhaseAt(before: Phase, events: seq<BattleEvent>): Phase {
    match Last(PhaseIn(), events) case Some(phase) => phase case None => before
  }

  function StartIn(): BattleEvent -> Option<BattleEvent> {
    (e: BattleEvent) => if e.BattleStarted? then Some(e) else None
  }

  function EndIn(): BattleEvent -> Option<int> {
    (e: BattleEvent) => if e.BattleEnded? then Some(e.occurredAtMs) else None
  }

  function JoinIn(p: string): BattleEvent -> Option<BattleEvent> {
    (e: BattleEvent) => if e.PlayerJoined? && e.playerId == p then Some(e) else None
  }

  function AmmoIn(p: string): BattleEvent -> Option<int> {
    (e: BattleEvent) =>
      if e.PlayerJoined? && e.playerId == p then Some(0)
      else if e.Shot? && e.playerId == p then Some(e.ammoAfter)
      else if e.PlayerStateUpdated? && e.playerId == p then Some(e.ammo)
      else None
  }

  function Overrides(e: BattleEvent, p: string): bool {
    e.PlayerStateUpdated? && e.playerId == p
  }

  /** The health that was last set, by a join or an override. */
  function HealthIn(p: string): BattleEvent -> Option<int> {
    (e: BattleEvent) =>
      if e.PlayerJoined? && e.playerId == p then Some(100)
      else if Overrides(e, p) then Some(e.health)
      else None
  }

  function AliveIn(p: string): BattleEvent -> Option<bool> {
    (e: BattleEvent) =>
      if e.PlayerJoined? && e.playerId == p then Some(true)
      else if Overrides(e, p) then Some(e.alive)
      else None
  }

  ghost function ShotsBy(p: string): BattleEvent -> int {
    (e: BattleEvent) => if e.Shot? && e.playerId == p then 1 else 0
  }

  /** The sum of f over the events after the last override of p. */
  ghost function Since(f: BattleEvent -> int, p: string, h: seq<BattleEvent>): int {
    if h == [] || Overrides(h[|h| - 1], p) then 0
    else Since(f, p, h[..|h| - 1]) + f(h[|h| - 1])
  }

  /** The first name that is given is kept. */
  ghost function NameOf(h: seq<BattleEvent>): string {
    if h == [] then ""
    else
      var before := NameOf(h[..|h| - 1]);
      if before != "" then before else h[|h| - 1].battleId
  }

  // ---- the state that the history tells -----------------------------------------------------

  ghost predicate ProgressTold(s: BattleState, h: seq<BattleEvent>) {
    && s.battleId == NameOf(h)
    && s.phase == PhaseAt(Lobby, h)
    && s.endedAtMs == Last(EndIn(), h)
    && s.latestEventId == (if h == [] then None else Some(h[|h| - 1].eventId))
    && match Last(StartIn(), h)
       case None => s.startedAtMs == None && s.mode == ""
       case Some(e) => e.BattleStarted? && s.startedAtMs == Some(e.occurredAtMs) && s.mode == e.mode
  }

  ghost predicate JoinedTold(players: map<string, Player>, h: seq<BattleEvent>, p: string) {
    match Last(JoinIn(p), h)
    case None => p !in players
    case Some(e) =>
      && e.PlayerJoined?
      && p in players
      && players[p].playerId == p && players[p].displayName == e.displayName
      && players[p].teamId == e.teamId && players[p].moduleId == e.moduleId
      && Some(players[p].ammo) == Last(AmmoIn(p), h)
      && players[p].shotCount == Tally(ShotsBy(p), h)
      && players[p].hitCount == Tally(HitsBy(p), h)
  }

  /** The health last set, less the damage taken since; who was hit since lives on exactly with health left. */
  ghost predicate HealthTold(players: map<string, Player>, h: seq<BattleEvent>, p: string) {
    if p !in players then Since(DamageOn(p), p, h) == 0 && Since(HitsOn(p), p, h) == 0
    else
      && Last(HealthIn(p), h).Some? && Last(AliveIn(p), h).Some?
      && var health := Last(HealthIn(p), h).value - Since(DamageOn(p), p, h);
         && players[p].health == (if health > 0 then health else 0)
         && players[p].alive == (health > 0 && (Since(HitsOn(p), p, h) > 0 || Last(AliveIn(p), h).value))
  }

  ghost predicate Told(s: BattleState, h: seq<BattleEvent>) {
    && ProgressTold(s, h)
    && (forall p :: JoinedTold(s.players, h, p))
    && (forall p :: HealthTold(s.players, h, p))
  }

  // ---- one more event -----------------------------------------------------------------------

  lemma NameOneMore(h: seq<BattleEvent>, e: BattleEvent)
    ensures NameOf(h + [e]) == if NameOf(h) != "" then NameOf(h) else e.battleId
  {
    assert (h + [e])[..|h|] == h;
  }

  lemma SinceOneMore(f: BattleEvent -> int, p: string, h: seq<BattleEvent>, e: BattleEvent)
    ensures Since(f, p, h + [e]) == if Overrides(e, p) then 0 else Since(f, p, h) + f(e)
  {
    assert (h + [e])[..|h|] == h;
  }

  lemma ProgressStep(s: BattleState, h: seq<BattleEvent>, e: BattleEvent, s': BattleState)
    requires ProgressTold(s, h) && Apply(s, e) == Ok(s')
    ensures ProgressTold(s', h + [e])
  {
    hide Damaged, TeamOrNew, Last, NameOf;
    LastOneMore(PhaseIn(), h, e);
    LastOneMore(StartIn(), h, e);
    LastOneMore(EndIn(), h, e);
    NameOneMore(h, e);
  }

  lemma JoinedStep(s: BattleState, h: seq<BattleEvent>, e: BattleEvent, s': BattleState, p: string)
    requires JoinedTold(s.players, h, p) && Apply(s, e) == Ok(s')
    requires p !in s.players ==> Tally(ShotsBy(p), h) == 0 && Tally(HitsBy(p), h) == 0
    ensures JoinedTold(s'.players, h + [e], p)
    ensures p !in s'.players ==> Tally(ShotsBy(p), h + [e]) == 0 && Tally(HitsBy(p), h + [e]) == 0
  {
    hide Last, Tally, TeamOrNew;
    LastOneMore(JoinIn(p), h, e);
    LastOneMore(AmmoIn(p), h, e);
    TallyOneMore(ShotsBy(p), h, e);
    TallyOneMore(HitsBy(p), h, e);
  }

  lemma {:induction false} SinceSigns(h: seq<BattleEvent>, p: string)
    requires AllDecoded(h)
    ensures Since(DamageOn(p), p, h) >= 0 && Since(HitsOn(p), p, h) >= 0
    ensures Since(HitsOn(p), p, h) == 0 ==> Since(DamageOn(p), p, h) == 0
  {
    if h != [] {
      SinceSigns(h[..|h| - 1], p);
      assert WithinLimits(h[|h| - 1]);
    }
  }

  lemma HealthStep(s: BattleState, h: seq<BattleEvent>, e: BattleEvent, s': BattleState, p: string)
    requires HealthTold(s.players, h, p) && Apply(s, e) == Ok(s') && WithinLimits(e)
    requires Since(DamageOn(p), p, h) >= 0 && Since(HitsOn(p), p, h) >= 0
    ensures HealthTold(s'.players, h + [e], p)
  {
    hide Last, Since, TeamOrNew;
    LastOneMore(HealthIn(p), h, e);
    LastOneMore(AliveIn(p), h, e);
    SinceOneMore(DamageOn(p), p, h, e);
    SinceOneMore(HitsOn(p), p, h, e);
  }

  lemma {:induction false} Counted(h: seq<BattleEvent>, p: string)
    requires AllDecoded(h) && RunFrom(EMPTY_BATTLE, h).Ok?
    ensures var players := RunFrom(EMPTY_BATTLE, h).value.players;
            JoinedTold(players, h, p)
            && (p !in players ==> Tally(ShotsBy(p), h) == 0 && Tally(HitsBy(p), h) == 0)
  {
    if h != [] {
      hide Apply, JoinedTold, Tally;
      var front, e := h[..|h| - 1], h[|h| - 1];
      assert h == front + [e];
      Counted(front, p);
      JoinedStep(RunFrom(EMPTY_BATTLE, front).value, front, e, RunFrom(EMPTY_BATTLE, h).value, p);
    }
  }

  /** Every reachable battle is what its history tells. */
  lemma {:induction false} BattleIsHistory(h: seq<BattleEvent>)
    requires AllDecoded(h) && RunFrom(EMPTY_BATTLE, h).Ok?
    ensures Told(RunFrom(EMPTY_BATTLE, h).value, h)
  {
    hide Apply, ProgressTold, JoinedTold, HealthTold, WithinLimits;
    if h == [] {
      NothingTold();
    } else {
      var front, e := h[..|h| - 1], h[|h| - 1];
      assert h == front + [e];
      BattleIsHistory(front);
      var s, s' := RunFrom(EMPTY_BATTLE, front).value, RunFrom(EMPTY_BATTLE, h).value;
      ProgressStep(s, front, e, s');
      forall p
        ensures JoinedTold(s'.players, h, p) && HealthTold(s'.players, h, p)
      {
        Counted(h, p);
        SinceSigns(front, p);
        HealthStep(s, front, e, s', p);
      }
    }
  }

  lemma NothingTold()
    ensures Told(EMPTY_BATTLE, [])
  {
  }

  // ---- from any battle ----------------------------------------------------------------------

  /** The phase of every run is fixed by its last start, pause, resumption or end. */
  lemma {:induction false} PhaseOfRun(s: BattleState, events: seq<BattleEvent>)
    requires RunFrom(s, events).Ok?
    ensures RunFrom(s, events).value.phase == PhaseAt(s.phase, events)
  {
    if events != [] {
      var front, e := events[..|events| - 1], events[|events| - 1];
      assert events == front + [e];
      PhaseOfRun(s, front);
      hide Last;
      LastOneMore(PhaseIn(), front, e);
    }
  }

  // ---- which events are accepted ------------------------------------------------------------

  ghost predicate Joined(h: seq<BattleEvent>, p: string) {
    Last(JoinIn(p), h).Some?
  }

  /** The battle with this history accepts e. */
  ghost predicate Accepts(h: seq<BattleEvent>, e: BattleEvent) {
    var phase := PhaseAt(Lobby, h);
    && (NameOf(h) == "" || NameOf(h) == e.battleId)
    && match e
       case PlayerJoined(_, _, _, p, _, _, _) => phase.Lobby? && !Joined(h, p)
       case BattleStarted(_, _, _, _, _) => phase.Lobby?
       case Shot(_, _, _, p, _, _) => phase.Active? && Joined(h, p)
       case Hit(_, _, _, a, t, _, _, _) => phase.Active? && Joined(h, a) && Joined(h, t)
       case PlayerStateUpdated(_, _, _, p, _, _, _) => phase.Active? && Joined(h, p)
       case BattleEnded(_, _, _, _) => phase.Active? || phase.Paused?
       case BattlePaused(_, _, _, _) => phase.Active?
       case BattleResumed(_, _, _) => phase.Paused?
  }

  /** The verdict on the next event of every reachable battle; what is not accepted is a conflict. */
  lemma HistoryDecides(h: seq<BattleEvent>, e: BattleEvent)
    requires AllDecoded(h) && RunFrom(EMPTY_BATTLE, h).Ok?
    ensures var r := Apply(RunFrom(EMPTY_BATTLE, h).value, e);
            if Accepts(h, e) then r.Ok? else r == Err(Conflict)
  {
    hide RunFrom, Effect, Last;
    BattleIsHistory(h);
    var s := RunFrom(EMPTY_BATTLE, h).value;
    if e.Hit? {
      assert JoinedTold(s.players, h, e.attackerId) && JoinedTold(s.players, h, e.targetId);
    } else if e.PlayerJoined? || e.Shot? || e.PlayerStateUpdated? {
      assert JoinedTold(s.players, h, e.playerId);
    }
  }
}
