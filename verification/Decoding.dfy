/** Exactly which envelopes decode, and to which event. */
module Decoding {
  import opened Basics
  import opened Wire
  import Battle
  import BattleProtocol
  import Room
  import RoomProtocol

  // ---- what a payload field holds -----------------------------------------------------------

  ghost predicate HasText(j: Json, key: string, v: string) {
    v != "" && Field(j, key) == Some(Str(v))
  }

  ghost predicate Absent(j: Json, key: string) {
    Field(j, key) == None || Field(j, key) == Some(Null)
  }

  /** A missing or null text is the empty one. */
  ghost predicate HasOptionalText(j: Json, key: string, v: string) {
    Field(j, key) == Some(Str(v)) || (v == "" && Absent(j, key))
  }

  ghost predicate HasInt(j: Json, key: string, v: int) {
    Field(j, key).Some? && Field(j, key).value.Int? && Wrap32(Field(j, key).value.n) == v
  }

  ghost predicate HasOptionalInt(j: Json, key: string, v: Option<int>) {
    if v.Some? then HasInt(j, key, v.value) else Absent(j, key)
  }

  ghost predicate HasLong(j: Json, key: string, v: int) {
    Field(j, key) == Some(Int(v))
  }

  ghost predicate HasBool(j: Json, key: string, v: bool) {
    Field(j, key) == Some(Bool(v))
  }

  ghost predicate HasNumber(j: Json, key: string, v: real) {
    Field(j, key) == Some(Num(v)) || exists n :: Field(j, key) == Some(Int(n)) && v == n as real
  }

  /** A number that rounds to v. */
  ghost predicate HasRounded(j: Json, key: string, v: int) {
    -TWO_31 <= v < TWO_31 && exists x :: HasNumber(j, key, x) && Round(x) == v
  }

  // ---- battle events ------------------------------------------------------------------------

  /** The envelope is of the event's type and carries its fields. */
  ghost predicate CarriesBattle(envelope: Envelope, e: Battle.BattleEvent) {
    var t, p := envelope.eventType, envelope.payload;
    && e.battleId == envelope.subject && e.eventId == envelope.eventId && e.occurredAtMs == envelope.occurredAtMs
    && match e
       case PlayerJoined(_, _, _, player, name, team, m) =>
         t == "player_joined" && HasText(p, "player_id", player) && HasText(p, "display_name", name)
         && HasText(p, "team_id", team) && HasText(p, "module_id", m)
       case BattleStarted(_, _, _, mode, duration) =>
         t == "battle_started" && HasText(p, "mode", mode) && HasLong(p, "duration_ms", duration) && duration > 0
       case Shot(_, _, _, player, weapon, ammo) =>
         t == "shot" && HasText(p, "player_id", player) && HasText(p, "weapon_id", weapon)
         && HasInt(p, "ammo_after", ammo) && ammo >= 0
       case Hit(_, _, _, attacker, target, weapon, damage, zone) =>
         t == "hit" && HasText(p, "attacker_player_id", attacker) && HasText(p, "target_player_id", target)
         && HasText(p, "weapon_id", weapon) && HasRounded(p, "damage", damage) && damage > 0
         && HasText(p, "hit_zone", zone)
       case PlayerStateUpdated(_, _, _, player, health, ammo, alive) =>
         t == "player_state" && HasText(p, "player_id", player) && HasInt(p, "health", health) && health >= 0
         && HasInt(p, "ammo", ammo) && ammo >= 0 && HasBool(p, "alive", alive)
       case BattleEnded(_, _, _, reason) => t == "battle_ended" && HasText(p, "reason", reason)
       case BattlePaused(_, _, _, reason) => t == "battle_paused" && HasText(p, "reason", reason)
       case BattleResumed(_, _, _) => t == "battle_resumed"
  }

  lemma NumberRead(j: Json, key: string, v: real)
    ensures RequiredNumber(j, key) == Ok(v) <==> HasNumber(j, key, v)
  {
  }

  lemma RoundedRead(j: Json, key: string, v: int)
    ensures RequiredRoundedInt(j, key) == Ok(v) <==> HasRounded(j, key, v)
  {
    hide Round;
    if RequiredNumber(j, key).Ok? {
      NumberRead(j, key, RequiredNumber(j, key).value);
    }
    if HasRounded(j, key, v) {
      var x :| HasNumber(j, key, x) && Round(x) == v;
      NumberRead(j, key, x);
    }
  }

  /** Decoding gives e exactly when the envelope carries e; every other envelope is refused. */
  lemma BattleDecoding(envelope: Envelope, e: Battle.BattleEvent)
    ensures BattleProtocol.ToCoreEvent(envelope) == Ok(e) <==> CarriesBattle(envelope, e)
  {
    hide Field, Wrap32, RequiredRoundedInt, HasRounded, BattleProtocol.Decoded;
    if e.Hit? {
      RoundedRead(envelope.payload, "damage", e.damage);
    }
  }

  // ---- room events --------------------------------------------------------------------------

  ghost predicate CarriesTeam(item: Json, team: Room.TeamSpec) {
    && item.Obj? && HasText(item, "team_id", team.teamId) && HasText(item, "display_name", team.displayName)
    && HasLong(item, "max_players", team.maxPlayers)
  }

  ghost predicate CarriesTeams(j: Json, key: string, teams: seq<Room.TeamSpec>) {
    && Field(j, key).Some? && Field(j, key).value.Arr?
    && |Field(j, key).value.items| == |teams|
    && forall i | 0 <= i < |teams| :: CarriesTeam(Field(j, key).value.items[i], teams[i])
  }

  function RoomEventType(e: Room.RoomEvent): string {
    match e
    case RoomCreated(_, _, _, _, _, _, _, _, _) => "room_created"
    case PlayerJoined(_, _, _, _, _, _, _) => "room_player_joined"
    case PlayerLeft(_, _, _, _) => "room_player_left"
    case TeamChanged(_, _, _, _, _) => "room_player_team_changed"
    case ReadyChanged(_, _, _, _, _) => "room_player_ready_changed"
    case DeviceRegistered(_, _, _, _, _, _, _, _) => "room_device_registered"
    case DeviceHeartbeat(_, _, _, _, _, _, _) => "room_device_heartbeat_updated"
    case DeviceBound(_, _, _, _, _) => "room_device_bound"
    case DeviceUnbound(_, _, _, _) => "room_device_unbound"
    case PositionUpdated(_, _, _, _, _, _, _, _, _) => "room_player_position_updated"
    case RoomStarted(_, _, _, _, _) => "room_started"
    case RoomEnded(_, _, _) => "room_ended"
    case RoomClosed(_, _, _) => "room_closed"
  }

  ghost predicate CarriesRoomFields(p: Json, e: Room.RoomEvent) {
    match e
    case RoomCreated(_, _, _, code, name, mode, host, maxPlayers, teams) =>
      HasOptionalText(p, "room_code", code) && HasText(p, "name", name)
      && HasText(p, "mode", mode) && HasOptionalText(p, "host_player_id", host)
      && HasLong(p, "max_players", maxPlayers) && CarriesTeams(p, "teams", teams)
    case PlayerJoined(_, _, _, player, name, team, m) =>
      HasText(p, "player_id", player) && HasText(p, "display_name", name)
      && HasText(p, "team_id", team) && HasOptionalText(p, "module_id", m)
    case PlayerLeft(_, _, _, player) => HasText(p, "player_id", player)
    case TeamChanged(_, _, _, player, team) =>
      HasText(p, "player_id", player) && HasText(p, "team_id", team)
    case ReadyChanged(_, _, _, player, ready) =>
      HasText(p, "player_id", player) && HasBool(p, "ready", ready)
    case DeviceRegistered(_, _, _, device, kind, name, battery, signal) =>
      HasText(p, "device_id", device) && HasText(p, "device_kind", kind)
      && HasOptionalText(p, "display_name", name) && HasOptionalInt(p, "battery_percent", battery)
      && HasOptionalInt(p, "signal_strength", signal)
    case DeviceHeartbeat(_, _, _, device, battery, signal, online) =>
      HasText(p, "device_id", device)
      && HasOptionalInt(p, "battery_percent", battery) && HasOptionalInt(p, "signal_strength", signal)
      && HasBool(p, "online", online)
    case DeviceBound(_, _, _, device, player) =>
      HasText(p, "device_id", device) && HasText(p, "player_id", player)
    case DeviceUnbound(_, _, _, device) => HasText(p, "device_id", device)
    case PositionUpdated(_, _, _, player, device, x, y, heading, velocity) =>
      HasText(p, "player_id", player)
      && HasText(p, "source_device_id", device) && HasNumber(p, "x", x) && HasNumber(p, "y", y)
      && HasNumber(p, "heading_deg", heading) && HasNumber(p, "velocity_mps", velocity)
    case RoomStarted(_, _, _, battle, duration) =>
      HasText(p, "battle_id", battle) && HasLong(p, "duration_ms", duration) && duration > 0
    case RoomEnded(_, _, _) => true
    case RoomClosed(_, _, _) => true
  }

  /** The envelope is of the event's type and carries its fields. */
  ghost predicate CarriesRoom(envelope: Envelope, e: Room.RoomEvent) {
    && envelope.eventType == RoomEventType(e)
    && e.roomId == envelope.subject && e.eventId == envelope.eventId && e.occurredAtMs == envelope.occurredAtMs
    && CarriesRoomFields(envelope.payload, e)
  }

  lemma {:induction false} TeamsRead(items: seq<Json>, teams: seq<Room.TeamSpec>)
    ensures RoomProtocol.TeamSpecsOf(items) == Ok(teams)
       <==> |items| == |teams| && forall i | 0 <= i < |teams| :: CarriesTeam(items[i], teams[i])
  {
    if items != [] {
      var n := |items| - 1;
      if |teams| == |items| {
        TeamsRead(items[..n], teams[..n]);
        assert teams == teams[..n] + [teams[n]];
        TeamRead(items[n], teams[n]);
      } else {
        TeamsCount(items);
      }
    }
  }

  lemma TeamRead(item: Json, team: Room.TeamSpec)
    ensures RoomProtocol.TeamSpecOf(item) == Ok(team) <==> CarriesTeam(item, team)
  {
  }

  lemma {:induction false} TeamsCount(items: seq<Json>)
    ensures RoomProtocol.TeamSpecsOf(items).Ok? ==> |RoomProtocol.TeamSpecsOf(items).value| == |items|
  {
    if items != [] {
      TeamsCount(items[..|items| - 1]);
    }
  }

  lemma TeamListRead(j: Json, key: string, teams: seq<Room.TeamSpec>)
    ensures RoomProtocol.RequiredTeamSpecs(j, key) == Ok(teams) <==> CarriesTeams(j, key, teams)
  {
    hide CarriesTeam;
    if Field(j, key).Some? && Field(j, key).value.Arr? {
      TeamsRead(Field(j, key).value.items, teams);
    }
  }

  lemma PositionRead(p: Json, e: Room.RoomEvent)
    requires e.PositionUpdated?
    ensures RequiredNumber(p, "x") == Ok(e.x) <==> HasNumber(p, "x", e.x)
    ensures RequiredNumber(p, "y") == Ok(e.y) <==> HasNumber(p, "y", e.y)
    ensures RequiredNumber(p, "heading_deg") == Ok(e.headingDeg) <==> HasNumber(p, "heading_deg", e.headingDeg)
    ensures RequiredNumber(p, "velocity_mps") == Ok(e.velocityMps) <==> HasNumber(p, "velocity_mps", e.velocityMps)
  {
    NumberRead(p, "x", e.x);
    NumberRead(p, "y", e.y);
    NumberRead(p, "heading_deg", e.headingDeg);
    NumberRead(p, "velocity_mps", e.velocityMps);
  }

  /** The converter of the event's kind, applied to the envelope. */
  function ConvertedAs(e: Room.RoomEvent, envelope: Envelope): Result<Room.RoomEvent> {
    match e
    case RoomCreated(_, _, _, _, _, _, _, _, _) => RoomProtocol.RoomCreatedOf(envelope)
    case PlayerJoined(_, _, _, _, _, _, _) => RoomProtocol.PlayerJoinedOf(envelope)
    case PlayerLeft(_, _, _, _) => RoomProtocol.PlayerLeftOf(envelope)
    case TeamChanged(_, _, _, _, _) => RoomProtocol.TeamChangedOf(envelope)
    case ReadyChanged(_, _, _, _, _) => RoomProtocol.ReadyChangedOf(envelope)
    case DeviceRegistered(_, _, _, _, _, _, _, _) => RoomProtocol.DeviceRegisteredOf(envelope)
    case DeviceHeartbeat(_, _, _, _, _, _, _) => RoomProtocol.DeviceHeartbeatOf(envelope)
    case DeviceBound(_, _, _, _, _) => RoomProtocol.DeviceBoundOf(envelope)
    case DeviceUnbound(_, _, _, _) => RoomProtocol.DeviceUnboundOf(envelope)
    case PositionUpdated(_, _, _, _, _, _, _, _, _) => RoomProtocol.PositionUpdatedOf(envelope)
    case RoomStarted(_, _, _, _, _) => RoomProtocol.RoomStartedOf(envelope)
    case RoomEnded(_, _, _) => Ok(Room.RoomEnded(envelope.subject, envelope.eventId, envelope.occurredAtMs))
    case RoomClosed(_, _, _) => Ok(Room.RoomClosed(envelope.subject, envelope.eventId, envelope.occurredAtMs))
  }

  lemma RosterDispatch(envelope: Envelope, e: Room.RoomEvent)
    requires e.RoomCreated? || e.PlayerJoined? || e.PlayerLeft?
    ensures RoomProtocol.ToRoomEvent(envelope) == Ok(e)
       <==> envelope.eventType == RoomEventType(e) && ConvertedAs(e, envelope) == Ok(e)
  {
    hide RoomProtocol.Decoded, RoomProtocol.IsDeviceEvent, RoomProtocol.IsPhaseEvent,
       RoomProtocol.ChangesPhase, RoomProtocol.RoomCreatedOf,
      RoomProtocol.PlayerJoinedOf, RoomProtocol.PlayerLeftOf, RoomProtocol.TeamChangedOf,
      RoomProtocol.ReadyChangedOf, RoomProtocol.DeviceRegisteredOf, RoomProtocol.DeviceHeartbeatOf,
      RoomProtocol.DeviceBoundOf, RoomProtocol.DeviceUnboundOf, RoomProtocol.PositionUpdatedOf,
      RoomProtocol.RoomStartedOf;
  }

  lemma PlayerDispatch(envelope: Envelope, e: Room.RoomEvent)
    requires e.TeamChanged? || e.ReadyChanged? || e.PositionUpdated?
    ensures RoomProtocol.ToRoomEvent(envelope) == Ok(e)
       <==> envelope.eventType == RoomEventType(e) && ConvertedAs(e, envelope) == Ok(e)
  {
    hide RoomProtocol.Decoded, RoomProtocol.IsDeviceEvent, RoomProtocol.IsPhaseEvent,
       RoomProtocol.ChangesPhase, RoomProtocol.RoomCreatedOf,
      RoomProtocol.PlayerJoinedOf, RoomProtocol.PlayerLeftOf, RoomProtocol.TeamChangedOf,
      RoomProtocol.ReadyChangedOf, RoomProtocol.DeviceRegisteredOf, RoomProtocol.DeviceHeartbeatOf,
      RoomProtocol.DeviceBoundOf, RoomProtocol.DeviceUnboundOf, RoomProtocol.PositionUpdatedOf,
      RoomProtocol.RoomStartedOf;
  }

  lemma DeviceDispatch(envelope: Envelope, e: Room.RoomEvent)
    requires e.DeviceRegistered? || e.DeviceHeartbeat?
    ensures RoomProtocol.ToRoomEvent(envelope) == Ok(e)
       <==> envelope.eventType == RoomEventType(e) && ConvertedAs(e, envelope) == Ok(e)
  {
    hide RoomProtocol.Decoded, RoomProtocol.IsDeviceEvent, RoomProtocol.IsPhaseEvent,
       RoomProtocol.ChangesPhase, RoomProtocol.RoomCreatedOf,
      RoomProtocol.PlayerJoinedOf, RoomProtocol.PlayerLeftOf, RoomProtocol.TeamChangedOf,
      RoomProtocol.ReadyChangedOf, RoomProtocol.DeviceRegisteredOf, RoomProtocol.DeviceHeartbeatOf,
      RoomProtocol.DeviceBoundOf, RoomProtocol.DeviceUnboundOf, RoomProtocol.PositionUpdatedOf,
      RoomProtocol.RoomStartedOf;
  }

  lemma BindingDispatch(envelope: Envelope, e: Room.RoomEvent)
    requires e.DeviceBound? || e.DeviceUnbound?
    ensures RoomProtocol.ToRoomEvent(envelope) == Ok(e)
       <==> envelope.eventType == RoomEventType(e) && ConvertedAs(e, envelope) == Ok(e)
  {
    hide RoomProtocol.Decoded, RoomProtocol.IsDeviceEvent, RoomProtocol.IsPhaseEvent,
       RoomProtocol.ChangesPhase, RoomProtocol.RoomCreatedOf,
      RoomProtocol.PlayerJoinedOf, RoomProtocol.PlayerLeftOf, RoomProtocol.TeamChangedOf,
      RoomProtocol.ReadyChangedOf, RoomProtocol.DeviceRegisteredOf, RoomProtocol.DeviceHeartbeatOf,
      RoomProtocol.DeviceBoundOf, RoomProtocol.DeviceUnboundOf, RoomProtocol.PositionUpdatedOf,
      RoomProtocol.RoomStartedOf;
  }

  lemma StartDispatch(envelope: Envelope, e: Room.RoomEvent)
    requires e.RoomStarted?
    ensures RoomProtocol.ToRoomEvent(envelope) == Ok(e)
       <==> envelope.eventType == RoomEventType(e) && ConvertedAs(e, envelope) == Ok(e)
  {
    hide RoomProtocol.Decoded, RoomProtocol.IsDeviceEvent, RoomProtocol.IsPhaseEvent,
       RoomProtocol.ChangesPhase, RoomProtocol.RoomCreatedOf,
      RoomProtocol.PlayerJoinedOf, RoomProtocol.PlayerLeftOf, RoomProtocol.TeamChangedOf,
      RoomProtocol.ReadyChangedOf, RoomProtocol.DeviceRegisteredOf, RoomProtocol.DeviceHeartbeatOf,
      RoomProtocol.DeviceBoundOf, RoomProtocol.DeviceUnboundOf, RoomProtocol.PositionUpdatedOf,
      RoomProtocol.RoomStartedOf;
  }

  lemma EndDispatch(envelope: Envelope, e: Room.RoomEvent)
    requires e.RoomEnded? || e.RoomClosed?
    ensures RoomProtocol.ToRoomEvent(envelope) == Ok(e)
       <==> envelope.eventType == RoomEventType(e) && ConvertedAs(e, envelope) == Ok(e)
  {
    hide RoomProtocol.Decoded, RoomProtocol.IsDeviceEvent, RoomProtocol.IsPhaseEvent,
       RoomProtocol.ChangesPhase, RoomProtocol.RoomCreatedOf,
      RoomProtocol.PlayerJoinedOf, RoomProtocol.PlayerLeftOf, RoomProtocol.TeamChangedOf,
      RoomProtocol.ReadyChangedOf, RoomProtocol.DeviceRegisteredOf, RoomProtocol.DeviceHeartbeatOf,
      RoomProtocol.DeviceBoundOf, RoomProtocol.DeviceUnboundOf, RoomProtocol.PositionUpdatedOf,
      RoomProtocol.RoomStartedOf;
  }

  lemma RoomDispatch(envelope: Envelope, e: Room.RoomEvent)
    ensures RoomProtocol.ToRoomEvent(envelope) == Ok(e)
       <==> envelope.eventType == RoomEventType(e) && ConvertedAs(e, envelope) == Ok(e)
  {
    hide RoomProtocol.ToRoomEvent, ConvertedAs, RoomEventType;
    if e.RoomCreated? || e.PlayerJoined? || e.PlayerLeft? {
      RosterDispatch(envelope, e);
    } else if e.TeamChanged? || e.ReadyChanged? || e.PositionUpdated? {
      PlayerDispatch(envelope, e);
    } else if e.DeviceRegistered? || e.DeviceHeartbeat? {
      DeviceDispatch(envelope, e);
    } else if e.DeviceBound? || e.DeviceUnbound? {
      BindingDispatch(envelope, e);
    } else if e.RoomStarted? {
      StartDispatch(envelope, e);
    } else {
      EndDispatch(envelope, e);
    }
  }

  lemma DeviceFieldsRead(envelope: Envelope, e: Room.RoomEvent)
    requires e.DeviceRegistered? || e.DeviceHeartbeat?
    ensures ConvertedAs(e, envelope) == Ok(e)
       <==> && e.roomId == envelope.subject && e.eventId == envelope.eventId && e.occurredAtMs == envelope.occurredAtMs
            && CarriesRoomFields(envelope.payload, e)
  {
    hide Field, Wrap32, RequiredNumber, HasNumber, CarriesTeams, RoomProtocol.RequiredTeamSpecs, RoomProtocol.Decoded;
  }

  lemma OtherFieldsRead(envelope: Envelope, e: Room.RoomEvent)
    requires !e.DeviceRegistered? && !e.DeviceHeartbeat?
    ensures ConvertedAs(e, envelope) == Ok(e)
       <==> && e.roomId == envelope.subject && e.eventId == envelope.eventId && e.occurredAtMs == envelope.occurredAtMs
            && CarriesRoomFields(envelope.payload, e)
  {
    hide Field, OptionalInt, HasOptionalInt, Wrap32, RequiredNumber, HasNumber, CarriesTeams,
      RoomProtocol.RequiredTeamSpecs, RoomProtocol.Decoded;
    if e.RoomCreated? {
      TeamListRead(envelope.payload, "teams", e.teams);
    } else if e.PositionUpdated? {
      PositionRead(envelope.payload, e);
    }
  }

  lemma RoomFieldsRead(envelope: Envelope, e: Room.RoomEvent)
    ensures ConvertedAs(e, envelope) == Ok(e)
       <==> && e.roomId == envelope.subject && e.eventId == envelope.eventId && e.occurredAtMs == envelope.occurredAtMs
            && CarriesRoomFields(envelope.payload, e)
  {
    hide ConvertedAs, CarriesRoomFields;
    if e.DeviceRegistered? || e.DeviceHeartbeat? {
      DeviceFieldsRead(envelope, e);
    } else {
      OtherFieldsRead(envelope, e);
    }
  }

  /** Decoding gives e exactly when the envelope carries e; every other envelope is refused. */
  lemma RoomDecoding(envelope: Envelope, e: Room.RoomEvent)
    ensures RoomProtocol.ToRoomEvent(envelope) == Ok(e) <==> CarriesRoom(envelope, e)
  {
    hide RoomProtocol.ToRoomEvent, ConvertedAs, RoomEventType, CarriesRoomFields;
    RoomDispatch(envelope, e);
    RoomFieldsRead(envelope, e);
  }
}
