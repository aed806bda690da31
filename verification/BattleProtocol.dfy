/** From battle envelopes to battle events. */
module BattleProtocol {
  import opened Basics
  import opened Wire
  import opened Battle

  /** The limits that decoding puts on the fields of an event, and the ids it takes from the envelope. */
  predicate Decoded(envelope: Envelope, e: BattleEvent) {
    && e.battleId == envelope.subject && e.eventId == envelope.eventId && e.occurredAtMs == envelope.occurredAtMs
    && WithinLimits(e)
  }

  predicate WithinLimits(e: BattleEvent) {
    match e
    case PlayerJoined(_, _, _, p, name, t, m) => p != "" && name != "" && t != "" && m != ""
    case BattleStarted(_, _, _, mode, duration) => mode != "" && duration > 0
    case Shot(_, _, _, p, _, ammo) => p != "" && 0 <= ammo < TWO_31
    case Hit(_, _, _, a, t, _, damage, _) => a != "" && t != "" && 1 <= damage < TWO_31
    case PlayerStateUpdated(_, _, _, p, health, ammo, _) => p != "" && 0 <= health < TWO_31 && 0 <= ammo < TWO_31
    case _ => true
  }

  function PlayerJoinedOf(e: Envelope): (r: Result<BattleEvent>)
    ensures r.Ok? ==> r.value.PlayerJoined? && Decoded(e, r.value)
  {
    var playerId :- RequiredString(e.payload, "player_id");
    var displayName :- RequiredString(e.payload, "display_name");
    var teamId :- RequiredString(e.payload, "team_id");
    var moduleId :- RequiredString(e.payload, "module_id");
    Ok(PlayerJoined(e.subject, e.eventId, e.occurredAtMs, playerId, displayName, teamId, moduleId))
  }

  function BattleStartedOf(e: Envelope): (r: Result<BattleEvent>)
    ensures r.Ok? ==> r.value.BattleStarted? && Decoded(e, r.value)
  {
    var mode :- RequiredString(e.payload, "mode");
    var duration :- RequiredI64(e.payload, "duration_ms");
    var _ :- Need(duration > 0, InvalidPayload);
    Ok(BattleStarted(e.subject, e.eventId, e.occurredAtMs, mode, duration))
  }

  function ShotOf(e: Envelope): (r: Result<BattleEvent>)
    ensures r.Ok? ==> r.value.Shot? && Decoded(e, r.value)
  {
    var playerId :- RequiredString(e.payload, "player_id");
    var weaponId :- RequiredString(e.payload, "weapon_id");
    var ammoAfter :- RequiredInt(e.payload, "ammo_after");
    var _ :- Need(ammoAfter >= 0, InvalidPayload);
    Ok(Shot(e.subject, e.eventId, e.occurredAtMs, playerId, weaponId, ammoAfter))
  }

  function HitOf(e: Envelope): (r: Result<BattleEvent>)
    ensures r.Ok? ==> r.value.Hit? && Decoded(e, r.value)
  {
    var attacker :- RequiredString(e.payload, "attacker_player_id");
    var target :- RequiredString(e.payload, "target_player_id");
    var weaponId :- RequiredString(e.payload, "weapon_id");
    var damage :- RequiredRoundedInt(e.payload, "damage");
    var hitZone :- RequiredString(e.payload, "hit_zone");
    var _ :- Need(damage > 0, InvalidPayload);
    Ok(Hit(e.subject, e.eventId, e.occurredAtMs, attacker, target, weaponId, damage, hitZone))
  }

  function PlayerStateOf(e: Envelope): (r: Result<BattleEvent>)
    ensures r.Ok? ==> r.value.PlayerStateUpdated? && Decoded(e, r.value)
  {
    var playerId :- RequiredString(e.payload, "player_id");
    var health :- RequiredInt(e.payload, "health");
    var ammo :- RequiredInt(e.payload, "ammo");
    var alive :- RequiredBool(e.payload, "alive");
    var _ :- Need(health >= 0 && ammo >= 0, InvalidPayload);
    Ok(PlayerStateUpdated(e.subject, e.eventId, e.occurredAtMs, playerId, health, ammo, alive))
  }

  function BattleEndedOf(e: Envelope): (r: Result<BattleEvent>)
    ensures r.Ok? ==> r.value.BattleEnded? && Decoded(e, r.value)
  {
    var reason :- RequiredString(e.payload, "reason");
    Ok(BattleEnded(e.subject, e.eventId, e.occurredAtMs, reason))
  }

  function BattlePausedOf(e: Envelope): (r: Result<BattleEvent>)
    ensures r.Ok? ==> r.value.BattlePaused? && Decoded(e, r.value)
  {
    var reason :- RequiredString(e.payload, "reason");
    Ok(BattlePaused(e.subject, e.eventId, e.occurredAtMs, reason))
  }

  function ToCoreEvent(envelope: Envelope): (r: Result<BattleEvent>)
    ensures r.Ok? ==> Decoded(envelope, r.value)
  {
    match envelope.eventType
    case "player_joined" => PlayerJoinedOf(envelope)
    case "battle_started" => BattleStartedOf(envelope)
    case "shot" => ShotOf(envelope)
    case "hit" => HitOf(envelope)
    case "player_state" => PlayerStateOf(envelope)
    case "battle_ended" => BattleEndedOf(envelope)
    case "battle_paused" => BattlePausedOf(envelope)
    case "battle_resumed" => Ok(BattleResumed(envelope.subject, envelope.eventId, envelope.occurredAtMs))
    case _ => Err(UnknownEventType)
  }
}
