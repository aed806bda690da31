/** From room envelopes to room events. */
module RoomProtocol {
  import opened Basics
  import opened Wire
  import opened Room

  function TeamSpecOf(item: Json): Result<TeamSpec> {
    var _ :- Need(item.Obj?, InvalidPayload);
    var teamId :- RequiredString(item, "team_id");
    var displayName :- RequiredString(item, "display_name");
    var maxPlayers :- RequiredU32(item, "max_players");
    Ok(TeamSpec(teamId, displayName, maxPlayers))
  }

  function TeamSpecsOf(items: seq<Json>): Result<seq<TeamSpec>> {
    if items == [] then Ok([])
    else
      var before :- TeamSpecsOf(items[..|items| - 1]);
      var last :- TeamSpecOf(items[|items| - 1]);
      Ok(before + [last])
  }

  function RequiredTeamSpecs(j: Json, key: string): Result<seq<TeamSpec>> {
    var v :- RequiredField(j, key);
    var _ :- Need(v.Arr?, InvalidPayload);
    TeamSpecsOf(v.items)
  }

  lemma {:induction false} BadItemsStayBad(items: seq<Json>, n: nat)
    requires n <= |items| && TeamSpecsOf(items[..n]).Err?
    ensures TeamSpecsOf(items) == TeamSpecsOf(items[..n])
    decreases |items| - n
  {
    if n < |items| {
      assert items[..n + 1][..n] == items[..n];
      BadItemsStayBad(items, n + 1);
    } else {
      assert items[..n] == items;
    }
  }

  /** The loop that reads the team array; it stops at the first malformed team. */
  method ReadTeamSpecs(j: Json, key: string) returns (r: Result<seq<TeamSpec>>)
    ensures r == RequiredTeamSpecs(j, key)
  {
    var field := Field(j, key);
    if field.None? {
      return Err(MissingField);
    }
    if !field.value.Arr? {
      return Err(InvalidPayload);
    }
    var items := field.value.items;
    var teams: seq<TeamSpec> := [];
    for i := 0 to |items|
      invariant TeamSpecsOf(items[..i]) == Ok(teams)
    {
      var team := TeamSpecOf(items[i]);
      assert items[..i + 1][..i] == items[..i];
      if team.Err? {
        BadItemsStayBad(items, i + 1);
        return Err(team.error);
      }
      teams := teams + [team.value];
    }
    assert items[..|items|] == items;
    r := Ok(teams);
  }

  /** The limits that decoding puts on the fields of an event, and what it takes from the envelope and its payload. */
  predicate Decoded(envelope: Envelope, e: RoomEvent) {
    && e.roomId == envelope.subject && e.eventId == envelope.eventId && e.occurredAtMs == envelope.occurredAtMs
    && WithinLimits(e)
    && (NamesPlayer(e) ==> Field(envelope.payload, "player_id") == Some(Str(e.playerId)))
    && (NamesDevice(e) ==> Field(envelope.payload, "device_id") == Some(Str(e.deviceId)))
  }

  predicate NamesPlayer(e: RoomEvent) {
    e.PlayerJoined? || e.PlayerLeft? || e.TeamChanged? || e.ReadyChanged? || e.DeviceBound? || e.PositionUpdated?
  }

  predicate NamesDevice(e: RoomEvent) {
    e.DeviceRegistered? || e.DeviceHeartbeat? || e.DeviceBound? || e.DeviceUnbound?
  }

  predicate ChangesPhase(e: RoomEvent) {
    e.RoomStarted? || e.RoomEnded? || e.RoomClosed?
  }

  predicate IsDeviceEvent(eventType: string) {
    || eventType == "room_device_registered" || eventType == "room_device_heartbeat_updated"
    || eventType == "room_device_bound" || eventType == "room_device_unbound"
  }

  predicate IsPhaseEvent(eventType: string) {
    eventType == "room_started" || eventType == "room_ended" || eventType == "room_closed"
  }

  predicate WithinLimits(e: RoomEvent) {
    match e
    case RoomCreated(_, _, _, _, name, mode, _, _, _) => name != "" && mode != ""
    case PlayerJoined(_, _, _, p, name, t, _) => p != "" && name != "" && t != ""
    case TeamChanged(_, _, _, _, t) => t != ""
    case RoomStarted(_, _, _, battleId, duration) => battleId != "" && duration > 0
    case _ => true
  }

  function RoomCreatedOf(e: Envelope): (r: Result<RoomEvent>)
    ensures r.Ok? ==> r.value.RoomCreated? && Decoded(e, r.value)
  {
    var roomCode :- OptionalString(e.payload, "room_code");
    var name :- RequiredString(e.payload, "name");
    var mode :- RequiredString(e.payload, "mode");
    var host :- OptionalString(e.payload, "host_player_id");
    var maxPlayers :- RequiredU32(e.payload, "max_players");
    var teams :- RequiredTeamSpecs(e.payload, "teams");
    Ok(RoomCreated(e.subject, e.eventId, e.occurredAtMs, roomCode, name, mode, host, maxPlayers, teams))
  }

  function PlayerJoinedOf(e: Envelope): (r: Result<RoomEvent>)
    ensures r.Ok? ==> r.value.PlayerJoined? && Decoded(e, r.value)
  {
    var playerId :- RequiredString(e.payload, "player_id");
    var displayName :- RequiredString(e.payload, "display_name");
    var teamId :- RequiredString(e.payload, "team_id");
    var moduleId :- OptionalString(e.payload, "module_id");
    Ok(PlayerJoined(e.subject, e.eventId, e.occurredAtMs, playerId, displayName, teamId, moduleId))
  }

  function PlayerLeftOf(e: Envelope): (r: Result<RoomEvent>)
    ensures r.Ok? ==> r.value.PlayerLeft? && Decoded(e, r.value)
  {
    var playerId :- RequiredString(e.payload, "player_id");
    Ok(PlayerLeft(e.subject, e.eventId, e.occurredAtMs, playerId))
  }

  function TeamChangedOf(e: Envelope): (r: Result<RoomEvent>)
    ensures r.Ok? ==> r.value.TeamChanged? && Decoded(e, r.value)
  {
    var playerId :- RequiredString(e.payload, "player_id");
    var teamId :- RequiredString(e.payload, "team_id");
    Ok(TeamChanged(e.subject, e.eventId, e.occurredAtMs, playerId, teamId))
  }

  function ReadyChangedOf(e: Envelope): (r: Result<RoomEvent>)
    ensures r.Ok? ==> r.value.ReadyChanged? && Decoded(e, r.value)
  {
    var playerId :- RequiredString(e.payload, "player_id");
    var ready :- RequiredBool(e.payload, "ready");
    Ok(ReadyChanged(e.subject, e.eventId, e.occurredAtMs, playerId, ready))
  }

  function DeviceRegisteredOf(e: Envelope): (r: Result<RoomEvent>)
    ensures r.Ok? ==> r.value.DeviceRegistered? && Decoded(e, r.value)
  {
    var deviceId :- RequiredString(e.payload, "device_id");
    var deviceKind :- RequiredString(e.payload, "device_kind");
    var displayName :- OptionalString(e.payload, "display_name");
    var battery :- OptionalInt(e.payload, "battery_percent");
    var signal :- OptionalInt(e.payload, "signal_strength");
    Ok(DeviceRegistered(e.subject, e.eventId, e.occurredAtMs, deviceId, deviceKind, displayName, battery, signal))
  }

  function DeviceHeartbeatOf(e: Envelope): (r: Result<RoomEvent>)
    ensures r.Ok? ==> r.value.DeviceHeartbeat? && Decoded(e, r.value)
  {
    var deviceId :- RequiredString(e.payload, "device_id");
    var battery :- OptionalInt(e.payload, "battery_percent");
    var signal :- OptionalInt(e.payload, "signal_strength");
    var online :- RequiredBool(e.payload, "online");
    Ok(DeviceHeartbeat(e.subject, e.eventId, e.occurredAtMs, deviceId, battery, signal, online))
  }

  function DeviceBoundOf(e: Envelope): (r: Result<RoomEvent>)
    ensures r.Ok? ==> r.value.DeviceBound? && Decoded(e, r.value)
  {
    var deviceId :- RequiredString(e.payload, "device_id");
    var playerId :- RequiredString(e.payload, "player_id");
    Ok(DeviceBound(e.subject, e.eventId, e.occurredAtMs, deviceId, playerId))
  }

  function DeviceUnboundOf(e: Envelope): (r: Result<RoomEvent>)
    ensures r.Ok? ==> r.value.DeviceUnbound? && Decoded(e, r.value)
  {
    var deviceId :- RequiredString(e.payload, "device_id");
    Ok(DeviceUnbound(e.subject, e.eventId, e.occurredAtMs, deviceId))
  }

  function PositionUpdatedOf(e: Envelope): (r: Result<RoomEvent>)
    ensures r.Ok? ==> r.value.PositionUpdated? && Decoded(e, r.value)
  {
    var playerId :- RequiredString(e.payload, "player_id");
    var deviceId :- RequiredString(e.payload, "source_device_id");
    var x :- RequiredNumber(e.payload, "x");
    var y :- RequiredNumber(e.payload, "y");
    var heading :- RequiredNumber(e.payload, "heading_deg");
    var velocity :- RequiredNumber(e.payload, "velocity_mps");
    Ok(PositionUpdated(e.subject, e.eventId, e.occurredAtMs, playerId, deviceId, x, y, heading, velocity))
  }

  function RoomStartedOf(e: Envelope): (r: Result<RoomEvent>)
    ensures r.Ok? ==> r.value.RoomStarted? && Decoded(e, r.value)
  {
    var battleId :- RequiredString(e.payload, "battle_id");
    var duration :- RequiredI64(e.payload, "duration_ms");
    var _ :- Need(duration > 0, InvalidPayload);
    Ok(RoomStarted(e.subject, e.eventId, e.occurredAtMs, battleId, duration))
  }

  function ToRoomEvent(envelope: Envelope): (r: Result<RoomEvent>)
    ensures r.Ok? ==> Decoded(envelope, r.value)
    ensures r.Ok? ==> (NamesDevice(r.value) <==> IsDeviceEvent(envelope.eventType))
    ensures r.Ok? ==> (ChangesPhase(r.value) <==> IsPhaseEvent(envelope.eventType))
  {
    match envelope.eventType
    case "room_created" => RoomCreatedOf(envelope)
    case "room_player_joined" => PlayerJoinedOf(envelope)
    case "room_player_left" => PlayerLeftOf(envelope)
    case "room_player_team_changed" => TeamChangedOf(envelope)
    case "room_player_ready_changed" => ReadyChangedOf(envelope)
    case "room_device_registered" => DeviceRegisteredOf(envelope)
    case "room_device_heartbeat_updated" => DeviceHeartbeatOf(envelope)
    case "room_device_bound" => DeviceBoundOf(envelope)
    case "room_device_unbound" => DeviceUnboundOf(envelope)
    case "room_player_position_updated" => PositionUpdatedOf(envelope)
    case "room_started" => RoomStartedOf(envelope)
    case "room_ended" => Ok(RoomEnded(envelope.subject, envelope.eventId, envelope.occurredAtMs))
    case "room_closed" => Ok(RoomClosed(envelope.subject, envelope.eventId, envelope.occurredAtMs))
    case _ => Err(UnknownEventType)
  }
}
