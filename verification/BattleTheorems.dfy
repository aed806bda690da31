/** What every battle keeps over every run of accepted events. */
module BattleTheorems {
  import opened Basics
  import opened Sums
  import opened Battle
  import opened BattleProtocol

  /** The state after a run of accepted events; an error if one of them is refused. */
  ghost function RunFrom(s: BattleState, events: seq<BattleEvent>): Result<BattleState> {
    if events == [] then Ok(s)
    else
      var before :- RunFrom(s, events[..|events| - 1]);
      Apply(before, events[|events| - 1])
  }

  ghost predicate AllDecoded(events: seq<BattleEvent>) {
    forall e <- events :: WithinLimits(e)
  }

  // ---- invariant ----------------------------------------------------------------------------

  ghost function HitsIn(players: map<string, Player>, teamId: string): string -> int {
    (p: string) => if p in players && players[p].teamId == teamId then players[p].hitCount else 0
  }

  /** The hits of all players of a team. */
  ghost function TeamHits(players: map<string, Player>, teamId: string): int {
    Total(players.Keys, HitsIn(players, teamId))
  }

  ghost predicate HasPlayer(players: map<string, Player>, teamId: string) {
    exists p :: p in players && players[p].teamId == teamId
  }

  ghost predicate TeamConserved(players: map<string, Player>, teamId: string, team: Team) {
    && team.teamId == teamId
    && HasPlayer(players, teamId)
    && team.score == TeamHits(players, teamId)
  }

  /** The teams are those of the players, and each has scored once for each hit of its players. */
  ghost predicate ScoresConserved(s: BattleState) {
    && (forall p | p in s.players :: s.players[p].teamId in s.teams)
    && forall t | t in s.teams :: TeamConserved(s.players, t, s.teams[t])
  }

  ghost predicate HealthSound(s: BattleState) {
    forall p | p in s.players ::
      && s.players[p].playerId == p
      && 0 <= s.players[p].health < TWO_31
      && (s.players[p].alive ==> s.players[p].health > 0)
  }

  ghost predicate TimesSound(s: BattleState) {
    && (s.startedAtMs.Some? <==> !s.phase.Lobby?)
    && (s.endedAtMs.Some? <==> s.phase.Ended?)
  }

  ghost predicate BattleInvariant(s: BattleState) {
    ScoresConserved(s) && HealthSound(s) && TimesSound(s)
  }

  lemma JoinKeepsTeam(before: map<string, Player>, p: string, player: Player, t: string)
    requires p !in before && player.hitCount == 0
    ensures TeamHits(before[p := player], t) == TeamHits(before, t)
    ensures HasPlayer(before[p := player], t) <==> HasPlayer(before, t) || player.teamId == t
  {
    var after := before[p := player];
    assert after.Keys == before.Keys + {p};
    TotalChange(before.Keys, HitsIn(before, t), HitsIn(after, t), p);
    if player.teamId == t {
      assert after[p].teamId == t;
    } else if HasPlayer(before, t) {
      var q :| q in before && before[q].teamId == t;
      assert after[q].teamId == t;
    }
  }

  lemma NoHitsWithoutPlayers(players: map<string, Player>, t: string)
    requires !HasPlayer(players, t)
    ensures TeamHits(players, t) == 0
  {
    TotalZero(players.Keys, HitsIn(players, t));
  }

  lemma JoinKeepsScores(s: BattleState, e: BattleEvent)
    requires ScoresConserved(s) && e.PlayerJoined? && Allowed(s, e)
    ensures ScoresConserved(Effect(s, e))
  {
    forall t | t in Effect(s, e).teams
      ensures TeamConserved(Effect(s, e).players, t, Effect(s, e).teams[t])
    {
      JoinKeepsTeam(s.players, e.playerId, NewPlayer(e), t);
      if t !in s.teams {
        NoHitsWithoutPlayers(s.players, t);
      } else {
        assert TeamConserved(s.players, t, s.teams[t]);
      }
    }
  }

  /** A change of players that keeps their teams and hit counts. */
  lemma SameTeams(before: map<string, Player>, after: map<string, Player>, t: string)
    requires before.Keys == after.Keys
    requires forall p | p in before :: after[p].teamId == before[p].teamId && after[p].hitCount == before[p].hitCount
    ensures HasPlayer(before, t) ==> HasPlayer(after, t)
    ensures TeamHits(after, t) == TeamHits(before, t)
  {
    TotalSame(before.Keys, HitsIn(before, t), HitsIn(after, t));
    if HasPlayer(before, t) {
      var p :| p in before && before[p].teamId == t;
      assert p in after && after[p].teamId == t;
    }
  }

  /** after is before with one more hit counted for a. */
  ghost predicate CountsHit(before: map<string, Player>, after: map<string, Player>, a: string) {
    && a in before
    && after.Keys == before.Keys
    && forall p | p in before ::
      && after[p].teamId == before[p].teamId
      && after[p].hitCount == before[p].hitCount + (if p == a then 1 else 0)
      && after[p].shotCount == before[p].shotCount
  }

  ghost predicate TeamListed(teams: map<string, Team>, player: Player) {
    player.teamId in teams && teams[player.teamId].teamId == player.teamId
  }

  lemma PlayerTeamListed(s: BattleState, p: string)
    requires ScoresConserved(s) && p in s.players
    ensures TeamListed(s.teams, s.players[p])
  {
    assert TeamConserved(s.players, s.players[p].teamId, s.teams[s.players[p].teamId]);
  }

  lemma HitEffect(s: BattleState, e: BattleEvent)
    requires e.Hit? && Allowed(s, e) && TeamListed(s.teams, s.players[e.attackerId])
    ensures CountsHit(s.players, Effect(s, e).players, e.attackerId)
    ensures var t := s.players[e.attackerId].teamId;
            Effect(s, e).teams == s.teams[t := Team(t, s.teams[t].score + 1)]
  {
  }

  lemma HitKeepsTeam(before: map<string, Player>, after: map<string, Player>, a: string, t: string)
    requires CountsHit(before, after, a)
    ensures HasPlayer(before, t) ==> HasPlayer(after, t)
    ensures TeamHits(after, t) == TeamHits(before, t) + (if before[a].teamId == t then 1 else 0)
  {
    TotalChange(before.Keys, HitsIn(before, t), HitsIn(after, t), a);
    assert before.Keys + {a} == after.Keys;
    if HasPlayer(before, t) {
      var p :| p in before && before[p].teamId == t;
      assert p in after && after[p].teamId == t;
    }
  }

  lemma HitKeepsScores(s: BattleState, e: BattleEvent)
    requires ScoresConserved(s) && e.Hit? && Allowed(s, e)
    ensures ScoresConserved(Effect(s, e))
  {
    hide TeamHits, HasPlayer, Effect;
    PlayerTeamListed(s, e.attackerId);
    HitEffect(s, e);
    var s' := Effect(s, e);
    forall t | t in s'.teams
      ensures TeamConserved(s'.players, t, s'.teams[t])
    {
      assert TeamConserved(s.players, t, s.teams[t]);
      HitKeepsTeam(s.players, s'.players, e.attackerId, t);
    }
  }

  lemma OtherKeepsScores(s: BattleState, e: BattleEvent)
    requires ScoresConserved(s) && !e.PlayerJoined? && !e.Hit? && Allowed(s, e)
    ensures ScoresConserved(Effect(s, e))
  {
    hide TeamHits, HasPlayer;
    var s' := Effect(s, e);
    forall t | t in s'.teams
      ensures TeamConserved(s'.players, t, s'.teams[t])
    {
      assert TeamConserved(s.players, t, s.teams[t]);
      SameTeams(s.players, s'.players, t);
    }
  }

  lemma ScoresKept(s: BattleState, e: BattleEvent)
    requires ScoresConserved(s) && Allowed(s, e)
    ensures ScoresConserved(Effect(s, e))
  {
    match e {
      case PlayerJoined(_, _, _, _, _, _, _) => JoinKeepsScores(s, e);
      case Hit(_, _, _, _, _, _, _, _) => HitKeepsScores(s, e);
      case _ => OtherKeepsScores(s, e);
    }
  }

  lemma HealthKept(s: BattleState, e: BattleEvent)
    requires HealthSound(s) && WithinLimits(e) && Allowed(s, e)
    ensures HealthSound(Effect(s, e))
  {
  }

  lemma InvariantKept(s: BattleState, e: BattleEvent)
    requires BattleInvariant(s) && WithinLimits(e) && Apply(s, e).Ok?
    ensures BattleInvariant(Apply(s, e).value)
  {
    hide TeamConserved;
    var named := WithId(s, e.battleId);
    ScoresKept(named, e);
    HealthKept(named, e);
  }

  /** Every reachable battle: scores are the sums of hit counts, health is sound, timestamps follow the phase. */
  lemma {:induction false} ReachableInvariant(events: seq<BattleEvent>)
    requires AllDecoded(events) && RunFrom(EMPTY_BATTLE, events).Ok?
    ensures BattleInvariant(RunFrom(EMPTY_BATTLE, events).value)
  {
    if events != [] {
      ReachableInvariant(events[..|events| - 1]);
      InvariantKept(RunFrom(EMPTY_BATTLE, events[..|events| - 1]).value, events[|events| - 1]);
    }
  }

  /** The 32-bit subtraction of a hit's damage cannot overflow in a reachable battle. */
  lemma HitDoesNotOverflow(events: seq<BattleEvent>, e: BattleEvent)
    requires AllDecoded(events) && RunFrom(EMPTY_BATTLE, events).Ok?
    requires e.Hit? && WithinLimits(e) && e.targetId in RunFrom(EMPTY_BATTLE, events).value.players
    ensures -TWO_31 <= RunFrom(EMPTY_BATTLE, events).value.players[e.targetId].health - e.damage < TWO_31
  {
    ReachableInvariant(events);
  }

  // ---- tallies over runs --------------------------------------------------------------------

  /** The sum of f over a run. */
  ghost function Tally(f: BattleEvent -> int, events: seq<BattleEvent>): int {
    if events == [] then 0
    else Tally(f, events[..|events| - 1]) + f(events[|events| - 1])
  }

  lemma {:induction false} TallyConcat(f: BattleEvent -> int, a: seq<BattleEvent>, b: seq<BattleEvent>)
    ensures Tally(f, a + b) == Tally(f, a) + Tally(f, b)
  {
    if b == [] {
      assert a + b == a;
    } else {
      assert (a + b)[..|a + b| - 1] == a + b[..|b| - 1];
      TallyConcat(f, a, b[..|b| - 1]);
    }
  }

  lemma TallyOneMore(f: BattleEvent -> int, events: seq<BattleEvent>, e: BattleEvent)
    ensures Tally(f, events + [e]) == Tally(f, events) + f(e)
  {
    assert (events + [e])[..|events|] == events;
  }

  lemma TallyWithout(f: BattleEvent -> int, a: seq<BattleEvent>, i: nat)
    requires i < |a|
    ensures Tally(f, a) == Tally(f, a[..i] + a[i + 1..]) + f(a[i])
  {
    hide Tally;
    var left, right := a[..i], a[i + 1..];
    assert a == (left + [a[i]]) + right;
    TallyConcat(f, left + [a[i]], right);
    TallyConcat(f, left, right);
    TallyOneMore(f, left, a[i]);
  }

  /** A tally does not depend on the order of the events. */
  lemma {:induction false} TallyPermutation(f: BattleEvent -> int, a: seq<BattleEvent>, b: seq<BattleEvent>)
    requires multiset(a) == multiset(b)
    ensures Tally(f, a) == Tally(f, b)
    decreases |a|
  {
    hide Tally;
    if a == [] {
      assert |multiset(b)| == 0;
      assert a == b;
    } else {
      assert a[0] in multiset(b);
      var i :| 0 <= i < |b| && b[i] == a[0];
      TakenOut(a, 0);
      TakenOut(b, i);
      TallyWithout(f, a, 0);
      TallyWithout(f, b, i);
      TallyPermutation(f, a[..0] + a[1..], b[..i] + b[i + 1..]);
    }
  }

  ghost function HitEvents(): BattleEvent -> int {
    (e: BattleEvent) => if e.Hit? then 1 else 0
  }

  ghost function ShotEvents(): BattleEvent -> int {
    (e: BattleEvent) => if e.Shot? then 1 else 0
  }

  ghost function DamageOn(p: string): BattleEvent -> int {
    (e: BattleEvent) => if e.Hit? && e.targetId == p then e.damage else 0
  }

  ghost function HitsOn(p: string): BattleEvent -> int {
    (e: BattleEvent) => if e.Hit? && e.targetId == p then 1 else 0
  }

  ghost function HitsBy(p: string): BattleEvent -> int {
    (e: BattleEvent) => if e.Hit? && e.attackerId == p then 1 else 0
  }

  ghost function HitsFor(players: map<string, Player>, teamId: string): BattleEvent -> int {
    (e: BattleEvent) =>
      if e.Hit? && e.attackerId in players && players[e.attackerId].teamId == teamId then 1 else 0
  }

  ghost function ScoreIn(teams: map<string, Team>): string -> int {
    (t: string) => if t in teams then teams[t].score else 0
  }

  ghost function TotalScore(teams: map<string, Team>): int {
    Total(teams.Keys, ScoreIn(teams))
  }

  ghost function ShotsIn(players: map<string, Player>): string -> int {
    (p: string) => if p in players then players[p].shotCount else 0
  }

  ghost function TotalShots(players: map<string, Player>): int {
    Total(players.Keys, ShotsIn(players))
  }

  lemma TeamChanged(teams: map<string, Team>, t: string, team: Team)
    ensures TotalScore(teams[t := team]) == TotalScore(teams) + team.score - (if t in teams then teams[t].score else 0)
  {
    TotalChange(teams.Keys, ScoreIn(teams), ScoreIn(teams[t := team]), t);
    assert teams[t := team].Keys == teams.Keys + {t};
  }

  lemma PlayerChanged(players: map<string, Player>, p: string, player: Player)
    ensures TotalShots(players[p := player])
         == TotalShots(players) + player.shotCount - (if p in players then players[p].shotCount else 0)
  {
    TotalChange(players.Keys, ShotsIn(players), ShotsIn(players[p := player]), p);
    assert players[p := player].Keys == players.Keys + {p};
  }

  lemma ShotsUntouched(before: map<string, Player>, after: map<string, Player>, a: string)
    requires CountsHit(before, after, a)
    ensures TotalShots(after) == TotalShots(before)
  {
    TotalSame(before.Keys, ShotsIn(before), ShotsIn(after));
  }

  lemma HitCounted(s: BattleState, e: BattleEvent)
    requires e.Hit? && Allowed(s, e) && TeamListed(s.teams, s.players[e.attackerId])
    ensures TotalScore(Effect(s, e).teams) == TotalScore(s.teams) + 1
    ensures TotalShots(Effect(s, e).players) == TotalShots(s.players)
  {
    hide Effect, TotalScore, TotalShots;
    assert s.players[e.attackerId].teamId in s.teams;
    HitEffect(s, e);
    hide CountsHit, TeamListed;
    var t := s.players[e.attackerId].teamId;
    TeamChanged(s.teams, t, Team(t, s.teams[t].score + 1));
    ShotsUntouched(s.players, Effect(s, e).players, e.attackerId);
  }

  lemma EventCounted(s: BattleState, e: BattleEvent)
    requires Allowed(s, e) && (e.Hit? ==> TeamListed(s.teams, s.players[e.attackerId]))
    ensures TotalScore(Effect(s, e).teams) == TotalScore(s.teams) + HitEvents()(e)
    ensures TotalShots(Effect(s, e).players) == TotalShots(s.players) + ShotEvents()(e)
  {
    hide TotalScore, TotalShots;
    match e {
      case PlayerJoined(_, _, _, p, _, t, _) =>
        TeamChanged(s.teams, t, TeamOrNew(s.teams, t));
        PlayerChanged(s.players, p, NewPlayer(e));
      case Hit(_, _, _, _, _, _, _, _) =>
        HitCounted(s, e);
      case Shot(_, _, _, p, _, _) =>
        PlayerChanged(s.players, p, Effect(s, e).players[p]);
      case PlayerStateUpdated(_, _, _, p, _, _, _) =>
        PlayerChanged(s.players, p, Effect(s, e).players[p]);
      case _ =>
    }
  }

  /** The total score is the number of accepted hits, the total shot count the number of accepted shots. */
  lemma {:induction false} ScoresCountHits(events: seq<BattleEvent>)
    requires AllDecoded(events) && RunFrom(EMPTY_BATTLE, events).Ok?
    ensures var s := RunFrom(EMPTY_BATTLE, events).value;
            && TotalScore(s.teams) == Tally(HitEvents(), events)
            && TotalShots(s.players) == Tally(ShotEvents(), events)
  {
    hide TotalScore, TotalShots, ScoresConserved, HealthSound, Effect, Allowed, HitEvents, ShotEvents;
    if events == [] {
      NothingCounted();
    } else {
      var front, e := events[..|events| - 1], events[|events| - 1];
      ScoresCountHits(front);
      ReachableInvariant(front);
      CountedOnce(RunFrom(EMPTY_BATTLE, front).value, e);
    }
  }

  lemma NothingCounted()
    ensures TotalScore(map[]) == 0 && TotalShots(map[]) == 0
  {
  }

  lemma CountedOnce(s: BattleState, e: BattleEvent)
    requires ScoresConserved(s) && Apply(s, e).Ok?
    ensures TotalScore(Apply(s, e).value.teams) == TotalScore(s.teams) + HitEvents()(e)
    ensures TotalShots(Apply(s, e).value.players) == TotalShots(s.players) + ShotEvents()(e)
  {
    hide TotalScore, TotalShots, TeamConserved, HitEvents, ShotEvents;
    var named := WithId(s, e.battleId);
    if e.Hit? {
      PlayerTeamListed(named, e.attackerId);
    }
    EventCounted(named, e);
  }

  // ---- health -------------------------------------------------------------------------------

  ghost predicate NoOverrides(events: seq<BattleEvent>) {
    forall e <- events :: !e.PlayerStateUpdated?
  }

  ghost predicate HealthIs(p: Player, health: int) {
    p.health == health && (p.alive <==> health > 0)
  }

  /** One event that is no override changes the health of p by the damage it does to p. */
  lemma HealthStep(s: BattleState, e: BattleEvent, p: string, damage: int)
    requires WithinLimits(e) && !e.PlayerStateUpdated? && Allowed(s, e)
    requires if p in s.players then HealthIs(s.players[p], Max(0, INITIAL_HEALTH - damage)) else damage == 0
    ensures var after, damage' := Effect(s, e).players, damage + DamageOn(p)(e);
            if p in after then HealthIs(after[p], Max(0, INITIAL_HEALTH - damage')) else damage' == 0
  {
  }

  /** Without state overrides a player's health is 100 less all damage taken, and alive means positive health. */
  lemma {:induction false} HealthClosedForm(events: seq<BattleEvent>, p: string)
    requires AllDecoded(events) && NoOverrides(events) && RunFrom(EMPTY_BATTLE, events).Ok?
    ensures var players := RunFrom(EMPTY_BATTLE, events).value.players;
            if p in players then HealthIs(players[p], Max(0, 100 - Tally(DamageOn(p), events)))
            else Tally(DamageOn(p), events) == 0
  {
    if events != [] {
      var front, e := events[..|events| - 1], events[|events| - 1];
      HealthClosedForm(front, p);
      HealthStep(WithId(RunFrom(EMPTY_BATTLE, front).value, e.battleId), e, p, Tally(DamageOn(p), front));
    }
  }

  /** e is a hit that the active battle s accepts. */
  ghost predicate HitFits(s: BattleState, e: BattleEvent) {
    && e.Hit? && e.damage >= 1
    && s.phase.Active? && e.battleId == s.battleId
    && e.attackerId in s.players && e.targetId in s.players
  }

  ghost predicate AllFit(s: BattleState, hits: seq<BattleEvent>) {
    forall e <- hits :: HitFits(s, e)
  }

  /** after is before, having taken `damage` in `taken` hits and made `made` hits itself. */
  ghost predicate Struck(before: Player, damage: int, taken: int, made: int, after: Player) {
    var health := Max(0, before.health - damage);
    && after == before.(hitCount := after.hitCount, health := after.health, alive := after.alive)
    && after.hitCount == before.hitCount + made
    && after.health == (if taken > 0 then health else before.health)
    && after.alive == (if taken > 0 then health > 0 else before.alive)
  }

  ghost predicate PlayerAfter(before: Player, p: string, hits: seq<BattleEvent>, after: Player) {
    Struck(before, Tally(DamageOn(p), hits), Tally(HitsOn(p), hits), Tally(HitsBy(p), hits), after)
  }

  ghost predicate TeamAfter(players: map<string, Player>, before: Team, t: string, hits: seq<BattleEvent>,
                            after: Team) {
    after.teamId == before.teamId && after.score == before.score + Tally(HitsFor(players, t), hits)
  }

  /** after is what a block of hits makes of before, whatever the order of the hits. */
  ghost predicate AfterHits(before: BattleState, hits: seq<BattleEvent>, after: BattleState) {
    && after == before.(players := after.players, teams := after.teams, latestEventId := after.latestEventId)
    && after.players.Keys == before.players.Keys
    && after.teams.Keys == before.teams.Keys
    && (forall p | p in before.players :: PlayerAfter(before.players[p], p, hits, after.players[p]))
    && (forall t | t in before.teams :: TeamAfter(before.players, before.teams[t], t, hits, after.teams[t]))
  }

  /** Damage taken is never negative, and is zero without hits. */
  lemma {:induction false} DamageSigns(s: BattleState, hits: seq<BattleEvent>, p: string)
    requires AllFit(s, hits)
    ensures Tally(DamageOn(p), hits) >= 0 && Tally(HitsOn(p), hits) >= 0
    ensures Tally(HitsOn(p), hits) == 0 ==> Tally(DamageOn(p), hits) == 0
  {
    if hits != [] {
      DamageSigns(s, hits[..|hits| - 1], p);
      assert HitFits(s, hits[|hits| - 1]);
    }
  }

  lemma PlayerOneMore(before: Player, p: string, hits: seq<BattleEvent>, mid: Player, e: BattleEvent)
    requires before.health >= 0 && PlayerAfter(before, p, hits, mid) && e.Hit? && e.damage >= 1
    requires Tally(DamageOn(p), hits) >= 0 && Tally(HitsOn(p), hits) >= 0
    requires Tally(HitsOn(p), hits) == 0 ==> Tally(DamageOn(p), hits) == 0
    ensures PlayerAfter(before, p, hits + [e], HitPlayer(mid, p, e))
  {
    TallyOneMore(DamageOn(p), hits, e);
    TallyOneMore(HitsOn(p), hits, e);
    TallyOneMore(HitsBy(p), hits, e);
  }

  /** What one hit does to the player p. */
  ghost function HitPlayer(player: Player, p: string, e: BattleEvent): Player
    requires e.Hit?
  {
    var struck := if p == e.targetId then Damaged(player, e.damage) else player;
    if p == e.attackerId then struck.(hitCount := struck.hitCount + 1) else struck
  }

  /** One accepted hit, player by player and team by team. */
  ghost predicate OneHit(s: BattleState, e: BattleEvent, after: BattleState)
    requires e.Hit? && e.attackerId in s.players
  {
    var t := s.players[e.attackerId].teamId;
    && after == s.(players := after.players, teams := after.teams, latestEventId := after.latestEventId)
    && after.players.Keys == s.players.Keys
    && (forall p | p in s.players :: after.players[p] == HitPlayer(s.players[p], p, e))
    && t in s.teams && after.teams == s.teams[t := Team(t, s.teams[t].score + 1)]
  }

  lemma HitIsOneHit(s: BattleState, e: BattleEvent)
    requires HitFits(s, e) && TeamListed(s.teams, s.players[e.attackerId])
    ensures Apply(s, e).Ok? && OneHit(s, e, Apply(s, e).value)
  {
  }

  lemma BlockOneMore(s: BattleState, hits: seq<BattleEvent>, mid: BattleState, e: BattleEvent, after: BattleState)
    requires AllFit(s, hits) && AfterHits(s, hits, mid) && HitFits(mid, e) && OneHit(mid, e, after)
    requires forall p | p in s.players :: s.players[p].health >= 0
    requires forall t | t in s.teams :: s.teams[t].teamId == t
    ensures AfterHits(s, hits + [e], after)
  {
    forall p | p in s.players
      ensures PlayerAfter(s.players[p], p, hits + [e], after.players[p])
    {
      DamageSigns(s, hits, p);
      PlayerOneMore(s.players[p], p, hits, mid.players[p], e);
    }
    assert PlayerAfter(s.players[e.attackerId], e.attackerId, hits, mid.players[e.attackerId]);
    forall t | t in s.teams
      ensures TeamAfter(s.players, s.teams[t], t, hits + [e], after.teams[t])
    {
      TallyOneMore(HitsFor(s.players, t), hits, e);
      assert TeamAfter(s.players, s.teams[t], t, hits, mid.teams[t]);
    }
  }

  /** The part of the battle invariant that a block of hits needs. */
  ghost predicate HitReady(s: BattleState) {
    && s.battleId != ""
    && (forall p | p in s.players :: s.players[p].health >= 0 && s.players[p].teamId in s.teams)
    && (forall t | t in s.teams :: s.teams[t].teamId == t)
  }

  lemma AttackerListed(s: BattleState, hits: seq<BattleEvent>, mid: BattleState, p: string)
    requires HitReady(s) && AfterHits(s, hits, mid) && p in s.players
    ensures TeamListed(mid.teams, mid.players[p])
  {
    assert PlayerAfter(s.players[p], p, hits, mid.players[p]);
    var t := s.players[p].teamId;
    assert TeamAfter(s.players, s.teams[t], t, hits, mid.teams[t]);
  }

  /** A block of hits is accepted exactly when each of them fits, and its effect is the closed form. */
  lemma {:induction false} HitBlock(s: BattleState, hits: seq<BattleEvent>)
    requires HitReady(s)
    requires forall e <- hits :: e.Hit? && e.damage >= 1
    ensures RunFrom(s, hits).Ok? <==> AllFit(s, hits)
    ensures AllFit(s, hits) ==> AfterHits(s, hits, RunFrom(s, hits).value)
  {
    if hits != [] {
      var front, e := hits[..|hits| - 1], hits[|hits| - 1];
      assert hits == front + [e];
      HitBlock(s, front);
      if AllFit(s, front) {
        var mid := RunFrom(s, front).value;
        assert HitFits(mid, e) <==> HitFits(s, e);
        if HitFits(s, e) {
          AttackerListed(s, front, mid, e.attackerId);
          HitIsOneHit(mid, e);
          BlockOneMore(s, front, mid, e, Apply(mid, e).value);
        }
      }
    }
  }

  // ---- lifecycle ----------------------------------------------------------------------------

  function Rank(phase: Phase): nat {
    match phase
    case Lobby => 0
    case Active => 1
    case Paused => 1
    case Ended => 2
  }

  ghost predicate SamePerson(a: Player, b: Player) {
    a.playerId == b.playerId && a.displayName == b.displayName && a.teamId == b.teamId && a.moduleId == b.moduleId
  }

  /** The roster, the teams, the mode and the start time. */
  ghost predicate SameRoster(s: BattleState, s': BattleState) {
    && s.players.Keys == s'.players.Keys
    && (forall p | p in s.players :: SamePerson(s.players[p], s'.players[p]))
    && s.teams.Keys == s'.teams.Keys
    && s.mode == s'.mode && s.startedAtMs == s'.startedAtMs
  }

  /** s' can come after s: the phase never goes back, and what is fixed at the start stays fixed. */
  ghost predicate Later(s: BattleState, s': BattleState) {
    && Rank(s.phase) <= Rank(s'.phase)
    && (s.battleId != "" ==> s'.battleId == s.battleId)
    && s.players.Keys <= s'.players.Keys
    && (!s.phase.Lobby? ==> SameRoster(s, s'))
    && (s.phase.Ended? ==> s' == s)
  }

  lemma HitKeepsRoster(s: BattleState, e: BattleEvent)
    requires e.Hit? && Allowed(s, e) && TeamListed(s.teams, s.players[e.attackerId])
    ensures SameRoster(s, Effect(s, e))
  {
  }

  lemma OneStepLater(s: BattleState, e: BattleEvent)
    requires Apply(s, e).Ok?
    requires e.Hit? && e.attackerId in s.players ==> TeamListed(s.teams, s.players[e.attackerId])
    ensures Later(s, Apply(s, e).value)
    ensures !s.phase.Ended?
  {
    var named := WithId(s, e.battleId);
    if e.Hit? {
      HitKeepsRoster(named, e);
    }
  }

  /** The phase rank never decreases, the roster is frozen after the lobby, and an ended battle is final. */
  lemma {:induction false} Lifecycle(s: BattleState, more: seq<BattleEvent>)
    requires BattleInvariant(s) && AllDecoded(more) && RunFrom(s, more).Ok?
    ensures Later(s, RunFrom(s, more).value) && BattleInvariant(RunFrom(s, more).value)
    ensures s.phase.Ended? ==> more == []
  {
    if more != [] {
      var front := more[..|more| - 1];
      Lifecycle(s, front);
      var mid, e := RunFrom(s, front).value, more[|more| - 1];
      if e.Hit? && e.attackerId in mid.players {
        PlayerTeamListed(mid, e.attackerId);
      }
      OneStepLater(mid, e);
      InvariantKept(mid, e);
    }
  }
}
