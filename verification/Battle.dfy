/**
 * The battle rules. `Apply` is the specification of one event on a battle value; class BattleMachine
 * updates a battle in place, handler by handler, and is proved against it.
 */
module Battle {
  import opened Basics

  datatype Phase = Lobby | Active | Paused | Ended

  datatype Player = Player(
    playerId: string,
    displayName: string,
    teamId: string,
    moduleId: string,
    health: int,
    ammo: int,
    alive: bool,
    shotCount: nat,
    hitCount: nat)

  datatype Team = Team(teamId: string, score: nat)

  datatype BattleState = BattleState(
    battleId: string,
    phase: Phase,
    mode: string,
    startedAtMs: Option<int>,
    endedAtMs: Option<int>,
    players: map<string, Player>,
    teams: map<string, Team>,
    latestEventId: Option<string>)

  const EMPTY_BATTLE := BattleState("", Lobby, "", None, None, map[], map[], None)

  const INITIAL_HEALTH := 100

  datatype BattleEvent =
    | PlayerJoined(battleId: string, eventId: string, occurredAtMs: int,
                   playerId: string, displayName: string, teamId: string, moduleId: string)
    | BattleStarted(battleId: string, eventId: string, occurredAtMs: int, mode: string, durationMs: int)
    | Shot(battleId: string, eventId: string, occurredAtMs: int, playerId: string, weaponId: string, ammoAfter: int)
    | Hit(battleId: string, eventId: string, occurredAtMs: int,
          attackerId: string, targetId: string, weaponId: string, damage: int, hitZone: string)
    | PlayerStateUpdated(battleId: string, eventId: string, occurredAtMs: int,
                         playerId: string, health: int, ammo: int, alive: bool)
    | BattleEnded(battleId: string, eventId: string, occurredAtMs: int, reason: string)
    | BattlePaused(battleId: string, eventId: string, occurredAtMs: int, reason: string)
    | BattleResumed(battleId: string, eventId: string, occurredAtMs: int)

  // ---- specification ------------------------------------------------------------------------

  /** An empty battle takes the id of the first event it sees. */
  function WithId(s: BattleState, battleId: string): BattleState {
    if s.battleId == "" then s.(battleId := battleId) else s
  }

  function NewPlayer(e: BattleEvent): Player
    requires e.PlayerJoined?
  {
    Player(e.playerId, e.displayName, e.teamId, e.moduleId, INITIAL_HEALTH, 0, true, 0, 0)
  }

  /** Whether the phase and the roster of s allow e. */
  predicate Allowed(s: BattleState, e: BattleEvent) {
    match e
    case PlayerJoined(_, _, _, p, _, _, _) => s.phase.Lobby? && p !in s.players
    case BattleStarted(_, _, _, _, _) => s.phase.Lobby?
    case Shot(_, _, _, p, _, _) => s.phase.Active? && p in s.players
    case Hit(_, _, _, a, t, _, _, _) => s.phase.Active? && a in s.players && t in s.players
    case PlayerStateUpdated(_, _, _, p, _, _, _) => s.phase.Active? && p in s.players
    case BattleEnded(_, _, _, _) => s.phase.Active? || s.phase.Paused?
    case BattlePaused(_, _, _, _) => s.phase.Active?
    case BattleResumed(_, _, _) => s.phase.Paused?
  }

  /** p after losing `damage` health. */
  function Damaged(p: Player, damage: int): Player {
    var health := Max(0, p.health - damage);
    p.(health := health, alive := health > 0)
  }

  function TeamOrNew(teams: map<string, Team>, teamId: string): Team {
    if teamId in teams then teams[teamId] else Team(teamId, 0)
  }

  /** A hit: the target loses health first; attacker and target may be the same player. */
  function AfterHit(s: BattleState, e: BattleEvent): BattleState
    requires e.Hit? && Allowed(s, e)
  {
    var players := s.players[e.targetId := Damaged(s.players[e.targetId], e.damage)];
    var attacker := players[e.attackerId];
    var team := TeamOrNew(s.teams, attacker.teamId);
    s.(players := players[e.attackerId := attacker.(hitCount := attacker.hitCount + 1)],
       teams := s.teams[attacker.teamId := team.(score := team.score + 1)])
  }

  /** The effect of an allowed event. */
  function Effect(s: BattleState, e: BattleEvent): BattleState
    requires Allowed(s, e)
  {
    var next := match e
      case PlayerJoined(_, _, _, p, _, t, _) =>
        s.(players := s.players[p := NewPlayer(e)], teams := s.teams[t := TeamOrNew(s.teams, t)])
      case BattleStarted(_, _, at, mode, _) =>
        s.(phase := Active, mode := mode, startedAtMs := Some(at))
      case Shot(_, _, _, p, _, ammo) =>
        s.(players := s.players[p := s.players[p].(shotCount := s.players[p].shotCount + 1, ammo := ammo)])
      case Hit(_, _, _, _, _, _, _, _) =>
        AfterHit(s, e)
      case PlayerStateUpdated(_, _, _, p, health, ammo, alive) =>
        s.(players := s.players[p := s.players[p].(health := Max(0, health), ammo := ammo,
                                                   alive := alive && Max(0, health) > 0)])
      case BattleEnded(_, _, at, _) => s.(phase := Ended, endedAtMs := Some(at))
      case BattlePaused(_, _, _, _) => s.(phase := Paused)
      case BattleResumed(_, _, _) => s.(phase := Active);
    next.(latestEventId := Some(e.eventId))
  }

  function Apply(s: BattleState, e: BattleEvent): Result<BattleState> {
    var named := WithId(s, e.battleId);
    if named.battleId == e.battleId && Allowed(named, e) then Ok(Effect(named, e)) else Err(Conflict)
  }

  /** The in-place outcome of one event: a rejection changes nothing, except that it may name an empty battle. */
  ghost predicate Applied(before: BattleState, e: BattleEvent, error: Option<ErrorCode>, after: BattleState) {
    match Apply(before, e)
    case Ok(s) => error == None && after == s
    case Err(c) => error == Some(c) && after == WithId(before, e.battleId)
  }

  /** Hurting the target, counting the hit and scoring, one record after the other, is `AfterHit`. */
  lemma HitRecords(s: BattleState, e: BattleEvent, target: Player, attacker: Player,
                   players: map<string, Player>, teams: map<string, Team>)
    requires e.Hit? && Allowed(s, e)
    requires target == Damaged(s.players[e.targetId], e.damage)
    requires attacker == s.players[e.targetId := target][e.attackerId]
    requires players
          == s.players[e.targetId := target][e.attackerId := attacker.(hitCount := attacker.hitCount + 1)]
    requires var team := TeamOrNew(s.teams, attacker.teamId);
             teams == s.teams[attacker.teamId := team.(score := team.score + 1)]
    ensures AfterHit(s, e) == s.(players := players, teams := teams)
  {
  }

  // ---- the battle updated in place ----------------------------------------------------------

  class BattleMachine {
    var battleId: string
    var phase: Phase
    var mode: string
    var startedAtMs: Option<int>
    var endedAtMs: Option<int>
    var players: map<string, Player>
    var teams: map<string, Team>
    var latestEventId: Option<string>

    function Value(): BattleState
      reads this
    {
      BattleState(battleId, phase, mode, startedAtMs, endedAtMs, players, teams, latestEventId)
    }

    /** A copy of a battle value. */
    constructor (s: BattleState)
      ensures Value() == s
    {
      battleId, phase, mode := s.battleId, s.phase, s.mode;
      startedAtMs, endedAtMs := s.startedAtMs, s.endedAtMs;
      players, teams, latestEventId := s.players, s.teams, s.latestEventId;
    }

    method CheckBattle(eventBattleId: string) returns (ok: bool)
      modifies this`battleId
      ensures Value() == WithId(old(Value()), eventBattleId)
      ensures ok <==> battleId == eventBattleId
    {
      if battleId == "" {
        battleId := eventBattleId;
      }
      ok := battleId == eventBattleId;
    }

    method ApplyPlayerJoined(e: BattleEvent) returns (error: Option<ErrorCode>)
      requires e.PlayerJoined?
      modifies this
      ensures Applied(old(Value()), e, error, Value())
    {
      var ok := CheckBattle(e.battleId);
      if !ok {
        return Some(Conflict);
      }
      if phase != Lobby {
        return Some(Conflict);
      }
      if e.playerId in players {
        return Some(Conflict);
      }
      players := players[e.playerId := Player(e.playerId, e.displayName, e.teamId, e.moduleId,
                                              INITIAL_HEALTH, 0, true, 0, 0)];
      if e.teamId !in teams {
        teams := teams[e.teamId := Team(e.teamId, 0)];
      }
      latestEventId := Some(e.eventId);
      error := None;
    }

    method ApplyBattleStarted(e: BattleEvent) returns (error: Option<ErrorCode>)
      requires e.BattleStarted?
      modifies this
      ensures Applied(old(Value()), e, error, Value())
    {
      var ok := CheckBattle(e.battleId);
      if !ok {
        return Some(Conflict);
      }
      if phase != Lobby {
        return Some(Conflict);
      }
      phase := Active;
      mode := e.mode;
      startedAtMs := Some(e.occurredAtMs);
      latestEventId := Some(e.eventId);
      error := None;
    }

    method ApplyShot(e: BattleEvent) returns (error: Option<ErrorCode>)
      requires e.Shot?
      modifies this
      ensures Applied(old(Value()), e, error, Value())
    {
      var ok := CheckBattle(e.battleId);
      if !ok {
        return Some(Conflict);
      }
      if phase != Active {
        return Some(Conflict);
      }
      if e.playerId !in players {
        return Some(Conflict);
      }
      var player := players[e.playerId];
      player := player.(shotCount := player.shotCount + 1);
      player := player.(ammo := e.ammoAfter);
      players := players[e.playerId := player];
      latestEventId := Some(e.eventId);
      error := None;
    }

    method ApplyHit(e: BattleEvent) returns (error: Option<ErrorCode>)
      requires e.Hit?
      modifies this
      ensures Applied(old(Value()), e, error, Value())
    {
      var ok := CheckBattle(e.battleId);
      if !ok {
        return Some(Conflict);
      }
      if phase != Active {
        return Some(Conflict);
      }
      if e.attackerId !in players {
        return Some(Conflict);
      }
      if e.targetId !in players {
        return Some(Conflict);
      }
      ghost var s := Value();
      var target := players[e.targetId];
      target := target.(health := Max(0, target.health - e.damage));
      target := target.(alive := target.health > 0);
      players := players[e.targetId := target];
      var attacker := players[e.attackerId];
      players := players[e.attackerId := attacker.(hitCount := attacker.hitCount + 1)];
      if attacker.teamId !in teams {
        teams := teams[attacker.teamId := Team(attacker.teamId, 0)];
      }
      teams := teams[attacker.teamId := teams[attacker.teamId].(score := teams[attacker.teamId].score + 1)];
      HitRecords(s, e, target, attacker, players, teams);
      latestEventId := Some(e.eventId);
      error := None;
    }

    method ApplyPlayerState(e: BattleEvent) returns (error: Option<ErrorCode>)
      requires e.PlayerStateUpdated?
      modifies this
      ensures Applied(old(Value()), e, error, Value())
    {
      var ok := CheckBattle(e.battleId);
      if !ok {
        return Some(Conflict);
      }
      if phase != Active {
        return Some(Conflict);
      }
      if e.playerId !in players {
        return Some(Conflict);
      }
      var player := players[e.playerId];
      player := player.(health := Max(0, e.health));
      player := player.(ammo := e.ammo);
      player := player.(alive := e.alive && player.health > 0);
      players := players[e.playerId := player];
      latestEventId := Some(e.eventId);
      error := None;
    }

    method ApplyBattleEnded(e: BattleEvent) returns (error: Option<ErrorCode>)
      requires e.BattleEnded?
      modifies this
      ensures Applied(old(Value()), e, error, Value())
    {
      var ok := CheckBattle(e.battleId);
      if !ok {
        return Some(Conflict);
      }
      if phase != Active && phase != Paused {
        return Some(Conflict);
      }
      phase := Ended;
      endedAtMs := Some(e.occurredAtMs);
      latestEventId := Some(e.eventId);
      error := None;
    }

    method ApplyBattlePaused(e: BattleEvent) returns (error: Option<ErrorCode>)
      requires e.BattlePaused?
      modifies this
      ensures Applied(old(Value()), e, error, Value())
    {
      var ok := CheckBattle(e.battleId);
      if !ok {
        return Some(Conflict);
      }
      if phase != Active {
        return Some(Conflict);
      }
      phase := Paused;
      latestEventId := Some(e.eventId);
      error := None;
    }

    method ApplyBattleResumed(e: BattleEvent) returns (error: Option<ErrorCode>)
      requires e.BattleResumed?
      modifies this
      ensures Applied(old(Value()), e, error, Value())
    {
      var ok := CheckBattle(e.battleId);
      if !ok {
        return Some(Conflict);
      }
      if phase != Paused {
        return Some(Conflict);
      }
      phase := Active;
      latestEventId := Some(e.eventId);
      error := None;
    }

    method ApplyEvent(e: BattleEvent) returns (error: Option<ErrorCode>)
      modifies this
      ensures Applied(old(Value()), e, error, Value())
    {
      match e {
        case PlayerJoined(_, _, _, _, _, _, _) => error := ApplyPlayerJoined(e);
        case BattleStarted(_, _, _, _, _) => error := ApplyBattleStarted(e);
        case Shot(_, _, _, _, _, _) => error := ApplyShot(e);
        case Hit(_, _, _, _, _, _, _, _) => error := ApplyHit(e);
        case PlayerStateUpdated(_, _, _, _, _, _, _) => error := ApplyPlayerState(e);
        case BattleEnded(_, _, _, _) => error := ApplyBattleEnded(e);
        case BattlePaused(_, _, _, _) => error := ApplyBattlePaused(e);
        case BattleResumed(_, _, _) => error := ApplyBattleResumed(e);
      }
    }
  }
}
