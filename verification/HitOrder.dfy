/**
 * The order of hits does not matter: over whole runs without state overrides, hits may be reordered among all other
 * events as long as each of them still falls into a phase that takes hits.
 */
module HitOrder {
  import opened Basics
  import opened Battle
  import opened BattleProtocol
  import opened BattleTheorems
  import opened History
  import opened BattleHistory

  ghost predicate OfBattle(events: seq<BattleEvent>, battleId: string) {
    forall e <- events :: e.battleId == battleId
  }

  /** The run without its hits. */
  ghost function NonHits(events: seq<BattleEvent>): seq<BattleEvent> {
    if events == [] then []
    else NonHits(events[..|events| - 1]) + (if events[|events| - 1].Hit? then [] else [events[|events| - 1]])
  }

  // ---- hits decide nothing but health and counts --------------------------------------------

  ghost predicate AlikePlayer(a: Player, b: Player) {
    a == b.(health := a.health, alive := a.alive, hitCount := a.hitCount)
  }

  /** The battles differ at most in what hits change. */
  ghost predicate Alike(x: BattleState, y: BattleState) {
    && x == y.(players := x.players, teams := x.teams, latestEventId := x.latestEventId)
    && x.players.Keys == y.players.Keys && x.teams.Keys == y.teams.Keys
    && (forall p | p in x.players :: AlikePlayer(x.players[p], y.players[p]))
    && forall t | t in x.teams :: x.teams[t].teamId == y.teams[t].teamId
  }

  lemma OtherStep(x: BattleState, y: BattleState, e: BattleEvent)
    requires Alike(x, y) && !e.Hit? && e.battleId == x.battleId
    ensures Apply(x, e).Ok? <==> Apply(y, e).Ok?
    ensures Apply(x, e).Ok? ==> Alike(Apply(x, e).value, Apply(y, e).value)
  {
    hide AfterHit, Damaged;
    if e.PlayerJoined? {
      JoinStep(x, y, e);
    } else {
      hide TeamOrNew, NewPlayer;
    }
  }

  lemma JoinStep(x: BattleState, y: BattleState, e: BattleEvent)
    requires Alike(x, y) && e.PlayerJoined? && e.battleId == x.battleId
    ensures Apply(x, e).Ok? <==> Apply(y, e).Ok?
    ensures Apply(x, e).Ok? ==> Alike(Apply(x, e).value, Apply(y, e).value)
  {
    hide AfterHit, Damaged;
  }

  lemma OneHitAlike(x: BattleState, y: BattleState, e: BattleEvent, after: BattleState)
    requires Alike(x, y) && e.Hit? && e.attackerId in x.players && OneHit(x, e, after)
    requires TeamListed(x.teams, x.players[e.attackerId])
    ensures Alike(after, y)
  {
    forall p | p in after.players
      ensures AlikePlayer(after.players[p], y.players[p])
    {
      assert AlikePlayer(x.players[p], y.players[p]);
    }
  }

  lemma HitStep(x: BattleState, y: BattleState, e: BattleEvent)
    requires Alike(x, y) && e.Hit? && WithinLimits(e) && e.battleId == x.battleId && ScoresConserved(x)
    ensures Apply(x, e).Ok? <==> HitFits(y, e)
    ensures Apply(x, e).Ok? ==> Alike(Apply(x, e).value, y)
  {
    hide ScoresConserved, Effect;
    if HitFits(y, e) {
      PlayerTeamListed(x, e.attackerId);
      HitIsOneHit(x, e);
      OneHitAlike(x, y, e, Apply(x, e).value);
    }
  }

  /** Without the other hits, the i-th event is a hit that the battle takes. */
  ghost predicate HitFitsAt(s: BattleState, events: seq<BattleEvent>, i: nat)
    requires i < |events|
  {
    var before := RunFrom(s, NonHits(events[..i]));
    before.Ok? && HitFits(before.value, events[i])
  }

  ghost predicate AllHitsFit(s: BattleState, events: seq<BattleEvent>) {
    forall i | 0 <= i < |events| && events[i].Hit? :: HitFitsAt(s, events, i)
  }

  lemma AllHitsFitOneMore(s: BattleState, front: seq<BattleEvent>, e: BattleEvent)
    ensures AllHitsFit(s, front + [e])
       <==> AllHitsFit(s, front) && (e.Hit? ==> HitFitsAt(s, front + [e], |front|))
  {
    var events := front + [e];
    forall i | 0 <= i < |front| && front[i].Hit?
      ensures HitFitsAt(s, front, i) <==> HitFitsAt(s, events, i)
    {
      assert events[..i] == front[..i];
    }
    if AllHitsFit(s, events) {
      forall i | 0 <= i < |front| && front[i].Hit?
        ensures HitFitsAt(s, front, i)
      {
        assert events[i].Hit?;
      }
    }
  }

  /** The run is accepted exactly when it is accepted without its hits and each hit fits; then the battles are alike. */
  ghost predicate Aside(s: BattleState, events: seq<BattleEvent>) {
    var with, without := RunFrom(s, events), RunFrom(s, NonHits(events));
    && (with.Ok? <==> without.Ok? && AllHitsFit(s, events))
    && (with.Ok? ==> Alike(with.value, without.value))
  }

  lemma AsideHit(s: BattleState, front: seq<BattleEvent>, e: BattleEvent)
    requires Aside(s, front) && e.Hit? && WithinLimits(e)
    requires RunFrom(s, front).Ok? ==>
      RunFrom(s, front).value.battleId == e.battleId && ScoresConserved(RunFrom(s, front).value)
    ensures Aside(s, front + [e])
  {
    hide RunFrom, Apply, Alike, HitFits, WithinLimits, AllHitsFit, ScoresConserved, NonHits;
    RunOneMore(s, front, e);
    NonHitsOneMore(front, e);
    AllHitsFitOneMore(s, front, e);
    assert (front + [e])[..|front|] == front;
    if RunFrom(s, front).Ok? {
      HitStep(RunFrom(s, front).value, RunFrom(s, NonHits(front)).value, e);
    }
  }

  lemma AsideOther(s: BattleState, front: seq<BattleEvent>, e: BattleEvent)
    requires Aside(s, front) && !e.Hit?
    requires RunFrom(s, front).Ok? ==> RunFrom(s, front).value.battleId == e.battleId
    ensures Aside(s, front + [e])
  {
    hide RunFrom, Apply, Alike, HitFitsAt, AllHitsFit, NonHits;
    RunOneMore(s, front, e);
    RunOneMore(s, NonHits(front), e);
    NonHitsOneMore(front, e);
    AllHitsFitOneMore(s, front, e);
    if RunFrom(s, front).Ok? {
      OtherStep(RunFrom(s, front).value, RunFrom(s, NonHits(front)).value, e);
    }
  }

  lemma NonHitsOneMore(front: seq<BattleEvent>, e: BattleEvent)
    ensures NonHits(front + [e]) == if e.Hit? then NonHits(front) else NonHits(front) + [e]
  {
    assert (front + [e])[..|front|] == front;
    assert NonHits(front) + [] == NonHits(front);
  }

  lemma NothingAside(s: BattleState)
    ensures Aside(s, [])
  {
  }

  /**
   * A run is accepted exactly when it is accepted without its hits and each hit fits where it stands; the hits then
   * change nothing but health, counts of hits and scores.
   */
  lemma {:induction false} HitsAside(s: BattleState, events: seq<BattleEvent>)
    requires BattleInvariant(s) && AllDecoded(events) && OfBattle(events, s.battleId)
    ensures Aside(s, events)
  {
    hide Apply, BattleInvariant, WithinLimits, Aside;
    if events == [] {
      NothingAside(s);
    } else {
      var front, e := events[..|events| - 1], events[|events| - 1];
      assert events == front + [e];
      HitsAside(s, front);
      if RunFrom(s, front).Ok? {
        AlwaysInvariant(s, front);
        SameBattle(s, front);
        InvariantScores(RunFrom(s, front).value);
      }
      if e.Hit? {
        AsideHit(s, front, e);
      } else {
        AsideOther(s, front, e);
      }
    }
  }

  lemma InvariantScores(s: BattleState)
    requires BattleInvariant(s)
    ensures ScoresConserved(s)
  {
  }

  lemma AlwaysInvariant(s: BattleState, events: seq<BattleEvent>)
    requires BattleInvariant(s) && AllDecoded(events) && RunFrom(s, events).Ok?
    ensures BattleInvariant(RunFrom(s, events).value)
  {
    Lifecycle(s, events);
  }

  lemma RunOneMore(s: BattleState, events: seq<BattleEvent>, e: BattleEvent)
    ensures RunFrom(s, events + [e]).Ok? <==> RunFrom(s, events).Ok? && Apply(RunFrom(s, events).value, e).Ok?
    ensures RunFrom(s, events + [e]).Ok? ==> RunFrom(s, events + [e]) == Apply(RunFrom(s, events).value, e)
  {
    assert (events + [e])[..|events|] == events;
  }

  lemma {:induction false} SameBattle(s: BattleState, events: seq<BattleEvent>)
    requires OfBattle(events, s.battleId) && RunFrom(s, events).Ok?
    ensures RunFrom(s, events).value.battleId == s.battleId
  {
    if events != [] {
      SameBattle(s, events[..|events| - 1]);
    }
  }

  // ---- where a hit fits ---------------------------------------------------------------------

  /** The last start, pause, resumption or end before the i-th event has left the battle active. */
  ghost predicate ActiveAt(s: BattleState, events: seq<BattleEvent>, i: nat)
    requires i < |events|
  {
    PhaseAt(s.phase, events[..i]).Active?
  }

  ghost predicate HitsWhileActive(s: BattleState, events: seq<BattleEvent>) {
    forall i | 0 <= i < |events| && events[i].Hit? :: ActiveAt(s, events, i)
  }

  lemma {:induction false} NonHitsPrefix(events: seq<BattleEvent>, i: nat)
    requires i <= |events|
    ensures NonHits(events[..i]) <= NonHits(events)
    decreases |events| - i
  {
    if i < |events| {
      assert events[..i + 1][..i] == events[..i];
      NonHitsPrefix(events, i + 1);
    } else {
      assert events[..i] == events;
    }
  }

  lemma {:induction false} RunConcat(s: BattleState, a: seq<BattleEvent>, b: seq<BattleEvent>)
    requires RunFrom(s, a).Ok?
    ensures RunFrom(s, a + b) == RunFrom(RunFrom(s, a).value, b)
  {
    if b == [] {
      assert a + b == a;
    } else {
      assert (a + b)[..|a + b| - 1] == a + b[..|b| - 1];
      RunConcat(s, a, b[..|b| - 1]);
    }
  }

  lemma {:induction false} PhaseWithoutHits(before: Phase, events: seq<BattleEvent>)
    ensures PhaseAt(before, NonHits(events)) == PhaseAt(before, events)
  {
    if events != [] {
      var front, e := events[..|events| - 1], events[|events| - 1];
      assert events == front + [e];
      PhaseWithoutHits(before, front);
      NonHitsOneMore(front, e);
      hide Last;
      LastOneMore(PhaseIn(), front, e);
      LastOneMore(PhaseIn(), NonHits(front), e);
    }
  }

  lemma {:induction false} PrefixAccepted(s: BattleState, events: seq<BattleEvent>, n: nat)
    requires n <= |events| && RunFrom(s, events).Ok?
    ensures RunFrom(s, events[..n]).Ok?
    decreases |events| - n
  {
    if n < |events| {
      PrefixAccepted(s, events, n + 1);
      assert events[..n + 1][..n] == events[..n];
    } else {
      assert events[..n] == events;
    }
  }

  /** The run without hits is in the phase that the last phase event says. */
  lemma ActiveInRun(s: BattleState, events: seq<BattleEvent>, i: nat)
    requires i < |events| && RunFrom(s, NonHits(events)).Ok?
    ensures RunFrom(s, NonHits(events[..i])).Ok?
    ensures ActiveAt(s, events, i) <==> RunFrom(s, NonHits(events[..i])).value.phase.Active?
  {
    hide RunFrom;
    NonHitsPrefix(events, i);
    var before := NonHits(events[..i]);
    assert before == NonHits(events)[..|before|];
    PrefixAccepted(s, NonHits(events), |before|);
    PhaseOfRun(s, before);
    PhaseWithoutHits(s.phase, events[..i]);
  }

  lemma {:induction false} NonHitsKept(events: seq<BattleEvent>)
    ensures forall e <- NonHits(events) :: e in events
  {
    if events != [] {
      NonHitsKept(events[..|events| - 1]);
    }
  }

  /** Two points of one run at which the battle is active have the same roster. */
  lemma SameRosterWhileActive(s: BattleState, i: seq<BattleEvent>, j: seq<BattleEvent>, run: seq<BattleEvent>)
    requires BattleInvariant(s) && AllDecoded(run) && i <= run && j <= run && |i| <= |j|
    requires RunFrom(s, i).Ok? && RunFrom(s, i).value.phase.Active? && RunFrom(s, j).Ok?
    ensures RunFrom(s, j).value.players.Keys == RunFrom(s, i).value.players.Keys
  {
    hide BattleInvariant, Apply, WithinLimits;
    var between := j[|i|..];
    assert j == i + between;
    assert forall e <- i :: e in run by {
      assert forall k | 0 <= k < |i| :: i[k] == run[k];
    }
    assert forall e <- between :: e in run by {
      assert forall k | 0 <= k < |between| :: between[k] == j[|i| + k] == run[|i| + k];
    }
    AlwaysInvariant(s, i);
    RunConcat(s, i, between);
    Lifecycle(RunFrom(s, i).value, between);
  }

  /** A hit that fitted somewhere fits wherever the same battle is active. */
  lemma FitsElsewhere(s: BattleState, a: seq<BattleEvent>, j: nat, b: seq<BattleEvent>, i: nat)
    requires BattleInvariant(s) && AllDecoded(a) && OfBattle(a, s.battleId) && NonHits(a) == NonHits(b)
    requires j < |a| && i < |b| && a[j] == b[i]
    requires RunFrom(s, NonHits(a)).Ok? && HitFitsAt(s, a, j) && ActiveAt(s, b, i)
    ensures HitFitsAt(s, b, i)
  {
    hide BattleInvariant, RunFrom, WithinLimits, ActiveAt;
    ActiveInRun(s, b, i);
    var run, before, there := NonHits(a), NonHits(b[..i]), NonHits(a[..j]);
    NonHitsKept(a);
    NonHitsPrefix(a, j);
    NonHitsPrefix(b, i);
    if |there| <= |before| {
      SameRosterWhileActive(s, there, before, run);
    } else {
      SameRosterWhileActive(s, before, there, run);
    }
    assert forall e <- before :: e in a by {
      assert forall k | 0 <= k < |before| :: before[k] == run[k];
    }
    SameBattle(s, before);
  }

  lemma SameEvents(a: seq<BattleEvent>, b: seq<BattleEvent>)
    requires multiset(a) == multiset(b)
    ensures forall e :: e in a <==> e in b
  {
    forall e
      ensures e in a <==> e in b
    {
      assert e in a <==> e in multiset(a);
      assert e in b <==> e in multiset(b);
    }
  }

  /** A reordering of the hits of an accepted run is accepted exactly when each hit falls into the active phase. */
  lemma ReorderedAccepted(s: BattleState, a: seq<BattleEvent>, b: seq<BattleEvent>)
    requires BattleInvariant(s) && AllDecoded(a) && OfBattle(a, s.battleId) && RunFrom(s, a).Ok?
    requires multiset(a) == multiset(b) && NonHits(a) == NonHits(b)
    ensures RunFrom(s, b).Ok? <==> HitsWhileActive(s, b)
  {
    hide BattleInvariant, RunFrom, WithinLimits;
    SameEvents(a, b);
    HitsAside(s, a);
    HitsAside(s, b);
    if HitsWhileActive(s, b) {
      forall i | 0 <= i < |b| && b[i].Hit?
        ensures HitFitsAt(s, b, i)
      {
        assert b[i] in a;
        var j :| 0 <= j < |a| && a[j] == b[i];
        assert HitFitsAt(s, a, j);
        FitsElsewhere(s, a, j, b, i);
      }
    }
    if AllHitsFit(s, b) {
      forall i | 0 <= i < |b| && b[i].Hit?
        ensures ActiveAt(s, b, i)
      {
        assert HitFitsAt(s, b, i);
        ActiveInRun(s, b, i);
      }
    }
  }

  // ---- what the hits add up to --------------------------------------------------------------

  /** after has taken `damage` in `taken` hits since base, and made `made` hits. */
  ghost predicate Tallied(base: Player, damage: int, taken: int, made: int, after: Player) {
    var health := Max(0, base.health - damage);
    && after.hitCount == base.hitCount + made
    && after.health == (if taken > 0 then health else base.health)
    && after.alive == (if taken > 0 then health > 0 else base.alive)
  }

  /** How p enters: as a player of s, or with full health. */
  ghost function Entered(s: BattleState, p: string): Player {
    if p in s.players then s.players[p] else Player(p, "", "", "", INITIAL_HEALTH, 0, true, 0, 0)
  }

  ghost predicate TalliedRun(s: BattleState, p: string, events: seq<BattleEvent>, after: BattleState) {
    if p in after.players then
      Tallied(Entered(s, p), Tally(DamageOn(p), events), Tally(HitsOn(p), events), Tally(HitsBy(p), events),
              after.players[p])
    else
      p !in s.players
      && Tally(DamageOn(p), events) == 0 && Tally(HitsOn(p), events) == 0 && Tally(HitsBy(p), events) == 0
  }

  lemma {:induction false} TallySigns(events: seq<BattleEvent>, p: string)
    requires AllDecoded(events)
    ensures Tally(DamageOn(p), events) >= 0 && Tally(HitsOn(p), events) >= 0
    ensures Tally(HitsOn(p), events) == 0 ==> Tally(DamageOn(p), events) == 0
  {
    if events != [] {
      TallySigns(events[..|events| - 1], p);
      assert WithinLimits(events[|events| - 1]);
    }
  }

  /** One event, seen by the player p. */
  lemma PlayerStep(s: BattleState, e: BattleEvent, p: string)
    requires Allowed(s, e) && !e.PlayerStateUpdated?
    ensures p in s.players ==> p in Effect(s, e).players
    ensures p in s.players ==> var before, after := s.players[p], Effect(s, e).players[p];
      if e.Hit? then after == HitPlayer(before, p, e)
      else after.hitCount == before.hitCount && after.health == before.health && after.alive == before.alive
    ensures p !in s.players && p in Effect(s, e).players ==>
      e.PlayerJoined? && Effect(s, e).players[p].hitCount == 0
      && Effect(s, e).players[p].health == INITIAL_HEALTH && Effect(s, e).players[p].alive
    ensures p !in s.players && e.Hit? ==> p != e.targetId && p != e.attackerId
  {
  }

  lemma TalliedOneMore(s: BattleState, p: string, events: seq<BattleEvent>, mid: BattleState, e: BattleEvent)
    requires TalliedRun(s, p, events, mid) && Allowed(mid, e) && !e.PlayerStateUpdated? && WithinLimits(e)
    requires Entered(s, p).health >= 0
    requires Tally(DamageOn(p), events) >= 0 && Tally(HitsOn(p), events) >= 0
    requires Tally(HitsOn(p), events) == 0 ==> Tally(DamageOn(p), events) == 0
    ensures TalliedRun(s, p, events + [e], Effect(mid, e))
  {
    hide Effect, Allowed, Entered;
    PlayerStep(mid, e, p);
    TallyOneMore(DamageOn(p), events, e);
    TallyOneMore(HitsOn(p), events, e);
    TallyOneMore(HitsBy(p), events, e);
    hide Tally;
    EntersFull(s, p);
  }

  lemma EntersFull(s: BattleState, p: string)
    ensures p !in s.players ==>
      Entered(s, p).health == INITIAL_HEALTH && Entered(s, p).alive && Entered(s, p).hitCount == 0
  {
  }

  /** Without overrides, health and hit count of every player are sums over the run. */
  lemma {:induction false} RunTallied(s: BattleState, events: seq<BattleEvent>, p: string)
    requires BattleInvariant(s) && AllDecoded(events) && NoOverrides(events) && RunFrom(s, events).Ok?
    ensures TalliedRun(s, p, events, RunFrom(s, events).value)
  {
    if events != [] {
      hide Effect, Allowed, TalliedRun, WithinLimits, BattleInvariant;
      var front, e := events[..|events| - 1], events[|events| - 1];
      assert events == front + [e];
      RunTallied(s, front, p);
      TallySigns(front, p);
      HealthNotNegative(s, p);
      var before := RunFrom(s, front).value;
      SamePlayersNamed(s, p, front, before, e.battleId);
      TalliedOneMore(s, p, front, WithId(before, e.battleId), e);
    }
  }

  lemma SamePlayersNamed(s: BattleState, p: string, events: seq<BattleEvent>, mid: BattleState, battleId: string)
    requires TalliedRun(s, p, events, mid)
    ensures TalliedRun(s, p, events, WithId(mid, battleId))
  {
  }

  lemma HealthNotNegative(s: BattleState, p: string)
    requires BattleInvariant(s)
    ensures Entered(s, p).health >= 0
  {
  }

  lemma SamePlayers(s: BattleState, a: seq<BattleEvent>, b: seq<BattleEvent>, x: BattleState, y: BattleState)
    requires multiset(a) == multiset(b)
    requires forall p | p in x.players :: TalliedRun(s, p, a, x) && TalliedRun(s, p, b, y)
    requires Alike(x, y)
    ensures x.players == y.players
  {
    forall p | p in x.players
      ensures x.players[p] == y.players[p]
    {
      TallyPermutation(DamageOn(p), a, b);
      TallyPermutation(HitsOn(p), a, b);
      TallyPermutation(HitsBy(p), a, b);
      assert AlikePlayer(x.players[p], y.players[p]);
    }
  }

  lemma SameTeamsFromPlayers(x: BattleState, y: BattleState)
    requires BattleInvariant(x) && BattleInvariant(y) && Alike(x, y) && x.players == y.players
    ensures x.teams == y.teams
  {
    forall t | t in x.teams
      ensures x.teams[t] == y.teams[t]
    {
      assert TeamConserved(x.players, t, x.teams[t]) && TeamConserved(y.players, t, y.teams[t]);
    }
  }

  lemma AlikeBoth(x: BattleState, y: BattleState, z: BattleState)
    requires Alike(x, z) && Alike(y, z)
    ensures Alike(x, y)
  {
    forall p | p in x.players
      ensures AlikePlayer(x.players[p], y.players[p])
    {
      assert AlikePlayer(x.players[p], z.players[p]) && AlikePlayer(y.players[p], z.players[p]);
    }
    assert x.players.Keys == z.players.Keys == y.players.Keys;
  }

  // ---- main results -------------------------------------------------------------------------

  /**
   * From any battle that keeps the invariant, in runs without state overrides: a run in which the hits have been
   * reordered among all other events is accepted exactly when each hit falls into the active phase, and then players,
   * teams and everything else are as before; only which event id is the latest may differ.
   */
  lemma HitOrderIrrelevant(s: BattleState, a: seq<BattleEvent>, b: seq<BattleEvent>)
    requires BattleInvariant(s) && AllDecoded(a) && NoOverrides(a) && OfBattle(a, s.battleId)
    requires RunFrom(s, a).Ok?
    requires multiset(a) == multiset(b) && NonHits(a) == NonHits(b)
    ensures RunFrom(s, b).Ok? <==> HitsWhileActive(s, b)
    ensures RunFrom(s, b).Ok? ==>
      RunFrom(s, b).value == RunFrom(s, a).value.(latestEventId := RunFrom(s, b).value.latestEventId)
  {
    hide BattleInvariant, RunFrom, WithinLimits, TalliedRun, Alike, HitsWhileActive, NonHits;
    ReorderedAccepted(s, a, b);
    if RunFrom(s, b).Ok? {
      SameEvents(a, b);
      HitsAside(s, a);
      HitsAside(s, b);
      var x, y := RunFrom(s, a).value, RunFrom(s, b).value;
      AlikeBoth(y, x, RunFrom(s, NonHits(a)).value);
      forall p | p in y.players
        ensures TalliedRun(s, p, b, y) && TalliedRun(s, p, a, x)
      {
        RunTallied(s, a, p);
        RunTallied(s, b, p);
      }
      SamePlayers(s, b, a, y, x);
      AlwaysInvariant(s, a);
      AlwaysInvariant(s, b);
      SameTeamsFromPlayers(y, x);
      AlikeSame(y, x);
    }
  }

  lemma AlikeSame(x: BattleState, y: BattleState)
    requires Alike(x, y) && x.players == y.players && x.teams == y.teams
    ensures x == y.(latestEventId := x.latestEventId)
  {
  }

  /** b is a with its hits moved among the positions of hits. */
  ghost predicate HitsPermuted(a: seq<BattleEvent>, b: seq<BattleEvent>) {
    && |a| == |b| && multiset(a) == multiset(b)
    && forall i | 0 <= i < |a| :: a[i] == b[i] || (a[i].Hit? && b[i].Hit?)
  }

  lemma {:induction false} SameNonHits(a: seq<BattleEvent>, b: seq<BattleEvent>, i: nat)
    requires HitsPermuted(a, b) && i <= |a|
    ensures NonHits(a[..i]) == NonHits(b[..i])
  {
    if i > 0 {
      assert a[..i][..i - 1] == a[..i - 1] && b[..i][..i - 1] == b[..i - 1];
      SameNonHits(a, b, i - 1);
    }
  }

  /** In an empty battle the first event of a run names it; naming it before the run is the same. */
  lemma {:induction false} NamedFirst(events: seq<BattleEvent>, battleId: string)
    requires OfBattle(events, battleId) && events != []
    ensures RunFrom(WithId(EMPTY_BATTLE, battleId), events) == RunFrom(EMPTY_BATTLE, events)
  {
    if |events| > 1 {
      NamedFirst(events[..|events| - 1], battleId);
    } else {
      assert events[..0] == [];
    }
  }

  lemma NamedInvariant(battleId: string)
    ensures BattleInvariant(WithId(EMPTY_BATTLE, battleId))
  {
  }

  /**
   * Whole runs of one battle, without state overrides: moving the hits among their positions, whatever stands between
   * them, gives an accepted run with the same players, teams, phase and times.
   */
  lemma HitsMayTradePlaces(battleId: string, a: seq<BattleEvent>, b: seq<BattleEvent>)
    requires AllDecoded(a) && NoOverrides(a) && OfBattle(a, battleId) && RunFrom(EMPTY_BATTLE, a).Ok?
    requires HitsPermuted(a, b)
    ensures RunFrom(EMPTY_BATTLE, b).Ok?
    ensures var x, y := RunFrom(EMPTY_BATTLE, a).value, RunFrom(EMPTY_BATTLE, b).value;
            y == x.(latestEventId := y.latestEventId)
  {
    if a != [] {
      hide BattleInvariant, RunFrom, WithinLimits, NonHits;
      var s := WithId(EMPTY_BATTLE, battleId);
      NamedInvariant(battleId);
      SameEvents(a, b);
      NamedFirst(a, battleId);
      NamedFirst(b, battleId);
      SameNonHits(a, b, |a|);
      assert a[..|a|] == a && b[..|b|] == b;
      HitsAside(s, a);
      forall i | 0 <= i < |b| && b[i].Hit?
        ensures ActiveAt(s, b, i)
      {
        SameNonHits(a, b, i);
        assert HitFitsAt(s, a, i);
        ActiveInRun(s, b, i);
      }
      HitOrderIrrelevant(s, a, b);
    }
  }

  /** The accepted events of a run all name one battle, if they name any. */
  lemma {:induction false} AcceptedOfOneBattle(events: seq<BattleEvent>)
    requires events != [] && RunFrom(EMPTY_BATTLE, events).Ok? && forall e <- events :: e.battleId != ""
    ensures OfBattle(events, events[0].battleId)
    ensures RunFrom(EMPTY_BATTLE, events).value.battleId == events[0].battleId
  {
    if |events| > 1 {
      AcceptedOfOneBattle(events[..|events| - 1]);
    } else {
      assert events[..0] == [];
    }
  }
}
