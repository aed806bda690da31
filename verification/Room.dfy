/**
 * The room rules. `Apply` is the specification of one event on a room value; class RoomMachine
 * updates a room in place, handler by handler, and is proved against it.
 */
module Room {
  import opened Basics

  datatype Phase = Open | Active | Ended | Closed

  datatype TeamSpec = TeamSpec(teamId: string, displayName: string, maxPlayers: UInt32)

  datatype Player = Player(
    playerId: string,
    displayName: string,
    teamId: string,
    moduleId: string,
    ready: bool,
    joinedAtMs: int)

  datatype Device = Device(
    deviceId: string,
    deviceKind: string,
    displayName: string,
    online: bool,
    batteryPercent: Option<int>,
    signalStrength: Option<int>,
    boundPlayerId: Option<string>,
    lastSeenAtMs: int,
    registeredAtMs: int)

  datatype Position = Position(
    playerId: string,
    sourceDeviceId: string,
    x: real,
    y: real,
    headingDeg: real,
    velocityMps: real,
    updatedAtMs: int)

  datatype RoomState = RoomState(
    roomId: string,
    roomCode: string,
    name: string,
    mode: string,
    phase: Phase,
    createdAtMs: int,
    updatedAtMs: int,
    hostPlayerId: string,
    maxPlayers: UInt32,
    teams: map<string, TeamSpec>,
    players: map<string, Player>,
    devices: map<string, Device>,
    positions: map<string, Position>,
    battleId: Option<string>,
    latestEventId: Option<string>)

  const EMPTY_ROOM := RoomState("", "", "", "", Open, 0, 0, "", 0, map[], map[], map[], map[], None, None)

  datatype RoomEvent =
    | RoomCreated(roomId: string, eventId: string, occurredAtMs: int, roomCode: string, name: string, mode: string,
                  hostPlayerId: string, maxPlayers: UInt32, teams: seq<TeamSpec>)
    | PlayerJoined(roomId: string, eventId: string, occurredAtMs: int,
                   playerId: string, displayName: string, teamId: string, moduleId: string)
    | PlayerLeft(roomId: string, eventId: string, occurredAtMs: int, playerId: string)
    | TeamChanged(roomId: string, eventId: string, occurredAtMs: int, playerId: string, teamId: string)
    | ReadyChanged(roomId: string, eventId: string, occurredAtMs: int, playerId: string, ready: bool)
    | DeviceRegistered(roomId: string, eventId: string, occurredAtMs: int, deviceId: string, deviceKind: string,
                       displayName: string, batteryPercent: Option<int>, signalStrength: Option<int>)
    | DeviceHeartbeat(roomId: string, eventId: string, occurredAtMs: int, deviceId: string,
                      batteryPercent: Option<int>, signalStrength: Option<int>, online: bool)
    | DeviceBound(roomId: string, eventId: string, occurredAtMs: int, deviceId: string, playerId: string)
    | DeviceUnbound(roomId: string, eventId: string, occurredAtMs: int, deviceId: string)
    | PositionUpdated(roomId: string, eventId: string, occurredAtMs: int, playerId: string, sourceDeviceId: string,
                      x: real, y: real, headingDeg: real, velocityMps: real)
    | RoomStarted(roomId: string, eventId: string, occurredAtMs: int, battleId: string, durationMs: int)
    | RoomEnded(roomId: string, eventId: string, occurredAtMs: int)
    | RoomClosed(roomId: string, eventId: string, occurredAtMs: int)

  // ---- queries ------------------------------------------------------------------------------

  function Members(players: map<string, Player>, teamId: string): set<string> {
    set p | p in players && players[p].teamId == teamId
  }

  /** The number of players of a team, cut to 32 bits. */
  function PlayerCountForTeam(players: map<string, Player>, teamId: string): UInt32 {
    |Members(players, teamId)| % TWO_32
  }

  predicate HasModule(players: map<string, Player>, moduleId: string) {
    moduleId != "" && exists p | p in players :: players[p].moduleId == moduleId
  }

  predicate HasBoundDevice(devices: map<string, Device>, playerId: string) {
    exists d | d in devices :: devices[d].boundPlayerId == Some(playerId)
  }

  predicate MetricInRange(value: Option<int>) {
    value.Some? ==> 0 <= value.value <= 100
  }

  /** `std::fmod`: the remainder has the sign of the dividend. */
  function Fmod(x: real, m: real): real
    requires m > 0.0
  {
    if x >= 0.0 then x - m * (x / m).Floor as real else x + m * (-x / m).Floor as real
  }

  function NormalizeHeading(headingDeg: real): real {
    var normalized := Fmod(headingDeg, 360.0);
    if normalized < 0.0 then normalized + 360.0 else normalized
  }

  // ---- specification ------------------------------------------------------------------------

  function InRoom(s: RoomState, roomId: string): Result<()> {
    Need(s.roomId != "" && s.roomId == roomId, Conflict)
  }

  function IsOpen(s: RoomState): Result<()> {
    Need(s.phase.Open?, Conflict)
  }

  function TeamHasSeat(s: RoomState, teamId: string): Result<()> {
    Need(teamId in s.teams
         && !(s.teams[teamId].maxPlayers > 0
              && PlayerCountForTeam(s.players, teamId) >= s.teams[teamId].maxPlayers), Conflict)
  }

  function Latest(s: RoomState, e: RoomEvent): RoomState {
    s.(latestEventId := Some(e.eventId), updatedAtMs := e.occurredAtMs)
  }

  /** The teams of a room and the 32-bit sum of their capacities, spec by spec. */
  function GatherTeams(specs: seq<TeamSpec>): Result<(map<string, TeamSpec>, UInt32)> {
    if specs == [] then Ok((map[], 0))
    else
      var before :- GatherTeams(specs[..|specs| - 1]);
      var team := specs[|specs| - 1];
      var _ :- Need(team.teamId != "" && team.maxPlayers != 0, InvalidArgument);
      var _ :- Need(team.teamId !in before.0, Conflict);
      Ok((before.0[team.teamId := team], (before.1 + team.maxPlayers) % TWO_32))
  }

  function Created(e: RoomEvent, teams: map<string, TeamSpec>): RoomState
    requires e.RoomCreated?
  {
    RoomState(e.roomId, e.roomCode, e.name, e.mode, Open, e.occurredAtMs, e.occurredAtMs, e.hostPlayerId,
              e.maxPlayers, teams, map[], map[], map[], None, Some(e.eventId))
  }

  function AfterRoomCreated(s: RoomState, e: RoomEvent): Result<RoomState>
    requires e.RoomCreated?
  {
    var _ :- Need(s.roomId == "", Conflict);
    var _ :- Need(e.roomId != "" && e.eventId != "" && e.maxPlayers != 0 && e.teams != [], InvalidArgument);
    var gathered :- GatherTeams(e.teams);
    var _ :- Need(gathered.1 >= e.maxPlayers, InvalidArgument);
    Ok(Created(e, gathered.0))
  }

  function AfterPlayerJoined(s: RoomState, e: RoomEvent): Result<RoomState>
    requires e.PlayerJoined?
  {
    var _ :- InRoom(s, e.roomId);
    var _ :- IsOpen(s);
    var _ :- Need(e.playerId != "", InvalidArgument);
    var _ :- Need(e.playerId !in s.players && |s.players| < s.maxPlayers, Conflict);
    var _ :- Need(!HasModule(s.players, e.moduleId), Conflict);
    var _ :- TeamHasSeat(s, e.teamId);
    var player := Player(e.playerId, e.displayName, e.teamId, e.moduleId, false, e.occurredAtMs);
    Ok(Latest(s.(players := s.players[e.playerId := player]), e))
  }

  function AfterPlayerLeft(s: RoomState, e: RoomEvent): Result<RoomState>
    requires e.PlayerLeft?
  {
    var _ :- InRoom(s, e.roomId);
    var _ :- IsOpen(s);
    var _ :- Need(e.playerId in s.players, NotFound);
    Ok(Latest(s.(players := s.players - {e.playerId}), e))
  }

  function AfterTeamChanged(s: RoomState, e: RoomEvent): Result<RoomState>
    requires e.TeamChanged?
  {
    var _ :- InRoom(s, e.roomId);
    var _ :- IsOpen(s);
    var _ :- Need(e.playerId in s.players, NotFound);
    var _ :- if s.players[e.playerId].teamId == e.teamId then Need(e.teamId in s.teams, Conflict)
       else TeamHasSeat(s, e.teamId);
    Ok(Latest(s.(players := s.players[e.playerId := s.players[e.playerId].(teamId := e.teamId)]), e))
  }

  function AfterReadyChanged(s: RoomState, e: RoomEvent): Result<RoomState>
    requires e.ReadyChanged?
  {
    var _ :- InRoom(s, e.roomId);
    var _ :- IsOpen(s);
    var _ :- Need(e.playerId in s.players, NotFound);
    Ok(Latest(s.(players := s.players[e.playerId := s.players[e.playerId].(ready := e.ready)]), e))
  }

  function AfterDeviceRegistered(s: RoomState, e: RoomEvent): Result<RoomState>
    requires e.DeviceRegistered?
  {
    var _ :- InRoom(s, e.roomId);
    var _ :- IsOpen(s);
    var _ :- Need(e.deviceId != "" && e.deviceKind != "", InvalidArgument);
    var _ :- Need(e.deviceId !in s.devices, Conflict);
    var _ :- Need(MetricInRange(e.batteryPercent) && MetricInRange(e.signalStrength), InvalidArgument);
    var device := Device(e.deviceId, e.deviceKind, e.displayName, true, e.batteryPercent, e.signalStrength, None,
                         e.occurredAtMs, e.occurredAtMs);
    Ok(Latest(s.(devices := s.devices[e.deviceId := device]), e))
  }

  /** A heartbeat is accepted in every phase; metrics it does not report keep their value. */
  function AfterDeviceHeartbeat(s: RoomState, e: RoomEvent): Result<RoomState>
    requires e.DeviceHeartbeat?
  {
    var _ :- InRoom(s, e.roomId);
    var _ :- Need(e.deviceId in s.devices, NotFound);
    var _ :- Need(MetricInRange(e.batteryPercent) && MetricInRange(e.signalStrength), InvalidArgument);
    var device := s.devices[e.deviceId];
    var seen := device.(online := e.online,
                        batteryPercent := if e.batteryPercent.Some? then e.batteryPercent else device.batteryPercent,
                        signalStrength := if e.signalStrength.Some? then e.signalStrength else device.signalStrength,
                        lastSeenAtMs := e.occurredAtMs);
    Ok(Latest(s.(devices := s.devices[e.deviceId := seen]), e))
  }

  function AfterDeviceBound(s: RoomState, e: RoomEvent): Result<RoomState>
    requires e.DeviceBound?
  {
    var _ :- InRoom(s, e.roomId);
    var _ :- IsOpen(s);
    var _ :- Need(e.deviceId in s.devices && e.playerId in s.players, NotFound);
    var _ :- Need(s.devices[e.deviceId].boundPlayerId.None? && !HasBoundDevice(s.devices, e.playerId), Conflict);
    var bound := s.devices[e.deviceId].(boundPlayerId := Some(e.playerId), online := true,
                                        lastSeenAtMs := e.occurredAtMs);
    Ok(Latest(s.(devices := s.devices[e.deviceId := bound]), e))
  }

  function AfterDeviceUnbound(s: RoomState, e: RoomEvent): Result<RoomState>
    requires e.DeviceUnbound?
  {
    var _ :- InRoom(s, e.roomId);
    var _ :- IsOpen(s);
    var _ :- Need(e.deviceId in s.devices, NotFound);
    var _ :- Need(s.devices[e.deviceId].boundPlayerId.Some?, Conflict);
    var unbound := s.devices[e.deviceId].(boundPlayerId := None, lastSeenAtMs := e.occurredAtMs);
    Ok(Latest(s.(devices := s.devices[e.deviceId := unbound]), e))
  }

  function AfterPositionUpdated(s: RoomState, e: RoomEvent): Result<RoomState>
    requires e.PositionUpdated?
  {
    var _ :- InRoom(s, e.roomId);
    var _ :- Need(s.phase.Open? || s.phase.Active?, Conflict);
    var _ :- Need(e.playerId in s.players && e.sourceDeviceId in s.devices, NotFound);
    var _ :- Need(s.devices[e.sourceDeviceId].boundPlayerId == Some(e.playerId), Conflict);
    var _ :- Need(e.velocityMps >= 0.0, InvalidArgument);
    var position := Position(e.playerId, e.sourceDeviceId, e.x, e.y, NormalizeHeading(e.headingDeg), e.velocityMps,
                             e.occurredAtMs);
    Ok(Latest(s.(positions := s.positions[e.playerId := position]), e))
  }

  predicate AllReady(players: map<string, Player>) {
    forall p | p in players :: players[p].ready
  }

  function AfterRoomStarted(s: RoomState, e: RoomEvent): Result<RoomState>
    requires e.RoomStarted?
  {
    var _ :- InRoom(s, e.roomId);
    var _ :- Need(s.phase.Open? && s.players != map[] && AllReady(s.players), Conflict);
    var _ :- Need(e.battleId != "", InvalidArgument);
    Ok(Latest(s.(phase := Active, battleId := Some(e.battleId)), e))
  }

  function AfterRoomEnded(s: RoomState, e: RoomEvent): Result<RoomState>
    requires e.RoomEnded?
  {
    var _ :- InRoom(s, e.roomId);
    var _ :- Need(s.phase.Active?, Conflict);
    Ok(Latest(s.(phase := Ended), e))
  }

  function AfterRoomClosed(s: RoomState, e: RoomEvent): Result<RoomState>
    requires e.RoomClosed?
  {
    var _ :- InRoom(s, e.roomId);
    var _ :- Need(!s.phase.Active? && !s.phase.Closed?, Conflict);
    Ok(Latest(s.(phase := Closed), e))
  }

  function Apply(s: RoomState, e: RoomEvent): Result<RoomState> {
    match e
    case RoomCreated(_, _, _, _, _, _, _, _, _) => AfterRoomCreated(s, e)
    case PlayerJoined(_, _, _, _, _, _, _) => AfterPlayerJoined(s, e)
    case PlayerLeft(_, _, _, _) => AfterPlayerLeft(s, e)
    case TeamChanged(_, _, _, _, _) => AfterTeamChanged(s, e)
    case ReadyChanged(_, _, _, _, _) => AfterReadyChanged(s, e)
    case DeviceRegistered(_, _, _, _, _, _, _, _) => AfterDeviceRegistered(s, e)
    case DeviceHeartbeat(_, _, _, _, _, _, _) => AfterDeviceHeartbeat(s, e)
    case DeviceBound(_, _, _, _, _) => AfterDeviceBound(s, e)
    case DeviceUnbound(_, _, _, _) => AfterDeviceUnbound(s, e)
    case PositionUpdated(_, _, _, _, _, _, _, _, _) => AfterPositionUpdated(s, e)
    case RoomStarted(_, _, _, _, _) => AfterRoomStarted(s, e)
    case RoomEnded(_, _, _) => AfterRoomEnded(s, e)
    case RoomClosed(_, _, _) => AfterRoomClosed(s, e)
  }

  /** The in-place outcome of one event: a rejected event leaves the room as it was. */
  ghost predicate Applied(before: RoomState, expected: Result<RoomState>, error: Option<ErrorCode>, after: RoomState) {
    match expected
    case Ok(s) => error == None && after == s
    case Err(c) => error == Some(c) && after == before
  }

  // ---- the room updated in place ------------------------------------------------------------

  class RoomMachine {
    var roomId: string
    var roomCode: string
    var name: string
    var mode: string
    var phase: Phase
    var createdAtMs: int
    var updatedAtMs: int
    var hostPlayerId: string
    var maxPlayers: UInt32
    var teams: map<string, TeamSpec>
    var players: map<string, Player>
    var devices: map<string, Device>
    var positions: map<string, Position>
    var battleId: Option<string>
    var latestEventId: Option<string>

    function Value(): RoomState
      reads this
    {
      RoomState(roomId, roomCode, name, mode, phase, createdAtMs, updatedAtMs, hostPlayerId, maxPlayers,
                teams, players, devices, positions, battleId, latestEventId)
    }

    /** A copy of a room value. */
    constructor (s: RoomState)
      ensures Value() == s
    {
      roomId, roomCode, name, mode, phase := s.roomId, s.roomCode, s.name, s.mode, s.phase;
      createdAtMs, updatedAtMs, hostPlayerId, maxPlayers := s.createdAtMs, s.updatedAtMs, s.hostPlayerId, s.maxPlayers;
      teams, players, devices, positions := s.teams, s.players, s.devices, s.positions;
      battleId, latestEventId := s.battleId, s.latestEventId;
    }

    method MarkLatest(e: RoomEvent)
      modifies this`latestEventId, this`updatedAtMs
      ensures Value() == Latest(old(Value()), e)
    {
      latestEventId := Some(e.eventId);
      updatedAtMs := e.occurredAtMs;
    }

    method CheckRoom(eventRoomId: string) returns (error: Option<ErrorCode>)
      ensures error == if InRoom(Value(), eventRoomId).Ok? then None else Some(Conflict)
    {
      if roomId == "" {
        return Some(Conflict);
      }
      if roomId != eventRoomId {
        return Some(Conflict);
      }
      error := None;
    }

    method CheckTeamCapacity(teamId: string) returns (error: Option<ErrorCode>)
      ensures error == if TeamHasSeat(Value(), teamId).Ok? then None else Some(Conflict)
    {
      if teamId !in teams {
        return Some(Conflict);
      }
      if teams[teamId].maxPlayers > 0 && PlayerCountForTeam(players, teamId) >= teams[teamId].maxPlayers {
        return Some(Conflict);
      }
      error := None;
    }

    /** The loop of room creation over the team specs. */
    static method CollectTeams(specs: seq<TeamSpec>) returns (r: Result<(map<string, TeamSpec>, UInt32)>)
      ensures r == GatherTeams(specs)
    {
      var gathered: map<string, TeamSpec> := map[];
      var capacity: UInt32 := 0;
      for i := 0 to |specs|
        invariant GatherTeams(specs[..i]) == Ok((gathered, capacity))
      {
        var team := specs[i];
        assert specs[..i + 1][..i] == specs[..i];
        if team.teamId == "" || team.maxPlayers == 0 {
          BadTeamsStayBad(specs, i + 1);
          return Err(InvalidArgument);
        }
        if team.teamId in gathered {
          BadTeamsStayBad(specs, i + 1);
          return Err(Conflict);
        }
        capacity := (capacity + team.maxPlayers) % TWO_32;
        gathered := gathered[team.teamId := TeamSpec(team.teamId, team.displayName, team.maxPlayers)];
      }
      assert specs[..|specs|] == specs;
      r := Ok((gathered, capacity));
    }

    method SetNames(e: RoomEvent)
      requires e.RoomCreated?
      modifies this`roomId, this`roomCode, this`name, this`mode
      ensures Value() == old(Value()).(roomId := e.roomId, roomCode := e.roomCode, name := e.name, mode := e.mode)
    {
      roomId, roomCode, name, mode := e.roomId, e.roomCode, e.name, e.mode;
    }

    method SetLimits(e: RoomEvent, gathered: map<string, TeamSpec>)
      requires e.RoomCreated?
      modifies this`hostPlayerId, this`maxPlayers, this`teams
      ensures Value() == old(Value()).(hostPlayerId := e.hostPlayerId, maxPlayers := e.maxPlayers, teams := gathered)
    {
      hostPlayerId, maxPlayers, teams := e.hostPlayerId, e.maxPlayers, gathered;
    }

    method ClearContents()
      modifies this`players, this`devices, this`positions, this`battleId
      ensures Value() == old(Value()).(players := map[], devices := map[], positions := map[], battleId := None)
    {
      players, devices, positions, battleId := map[], map[], map[], None;
    }

    method Reopen(e: RoomEvent)
      modifies this`phase, this`createdAtMs, this`latestEventId, this`updatedAtMs
      ensures Value() == Latest(old(Value()), e).(phase := Open, createdAtMs := e.occurredAtMs)
    {
      phase, createdAtMs := Open, e.occurredAtMs;
      MarkLatest(e);
    }

    /** Assigns every field of a new room. */
    method Create(e: RoomEvent, gathered: map<string, TeamSpec>)
      requires e.RoomCreated?
      modifies this
      ensures Value() == Created(e, gathered)
    {
      SetNames(e);
      SetLimits(e, gathered);
      ClearContents();
      Reopen(e);
    }

    method ApplyRoomCreated(e: RoomEvent) returns (error: Option<ErrorCode>)
      requires e.RoomCreated?
      modifies this
      ensures Applied(old(Value()), AfterRoomCreated(old(Value()), e), error, Value())
    {
      if roomId != "" {
        return Some(Conflict);
      }
      if e.roomId == "" || e.eventId == "" || e.maxPlayers == 0 || e.teams == [] {
        return Some(InvalidArgument);
      }
      var gathered := CollectTeams(e.teams);
      if gathered.Err? {
        return Some(gathered.error);
      }
      if gathered.value.1 < e.maxPlayers {
        return Some(InvalidArgument);
      }
      Create(e, gathered.value.0);
      error := None;
    }

    method ApplyPlayerJoined(e: RoomEvent) returns (error: Option<ErrorCode>)
      requires e.PlayerJoined?
      modifies this
      ensures Applied(old(Value()), AfterPlayerJoined(old(Value()), e), error, Value())
    {
      error := CheckRoom(e.roomId);
      if error.Some? {
        return;
      }
      if phase != Open {
        return Some(Conflict);
      }
      if e.playerId == "" {
        return Some(InvalidArgument);
      }
      if e.playerId in players {
        return Some(Conflict);
      }
      if |players| >= maxPlayers {
        return Some(Conflict);
      }
      if HasModule(players, e.moduleId) {
        return Some(Conflict);
      }
      error := CheckTeamCapacity(e.teamId);
      if error.Some? {
        return;
      }
      players := players[e.playerId := Player(e.playerId, e.displayName, e.teamId, e.moduleId, false, e.occurredAtMs)];
      MarkLatest(e);
    }

    method ApplyPlayerLeft(e: RoomEvent) returns (error: Option<ErrorCode>)
      requires e.PlayerLeft?
      modifies this
      ensures Applied(old(Value()), AfterPlayerLeft(old(Value()), e), error, Value())
    {
      error := CheckRoom(e.roomId);
      if error.Some? {
        return;
      }
      if phase != Open {
        return Some(Conflict);
      }
      if e.playerId !in players {
        return Some(NotFound);
      }
      players := players - {e.playerId};
      MarkLatest(e);
    }

    method ApplyTeamChanged(e: RoomEvent) returns (error: Option<ErrorCode>)
      requires e.TeamChanged?
      modifies this
      ensures Applied(old(Value()), AfterTeamChanged(old(Value()), e), error, Value())
    {
      error := CheckRoom(e.roomId);
      if error.Some? {
        return;
      }
      if phase != Open {
        return Some(Conflict);
      }
      if e.playerId !in players {
        return Some(NotFound);
      }
      if players[e.playerId].teamId != e.teamId {
        error := CheckTeamCapacity(e.teamId);
        if error.Some? {
          return;
        }
        players := players[e.playerId := players[e.playerId].(teamId := e.teamId)];
      } else if e.teamId !in teams {
        return Some(Conflict);
      }
      assert players == old(players)[e.playerId := old(players)[e.playerId].(teamId := e.teamId)];
      MarkLatest(e);
    }

    method ApplyReadyChanged(e: RoomEvent) returns (error: Option<ErrorCode>)
      requires e.ReadyChanged?
      modifies this
      ensures Applied(old(Value()), AfterReadyChanged(old(Value()), e), error, Value())
    {
      error := CheckRoom(e.roomId);
      if error.Some? {
        return;
      }
      if phase != Open {
        return Some(Conflict);
      }
      if e.playerId !in players {
        return Some(NotFound);
      }
      players := players[e.playerId := players[e.playerId].(ready := e.ready)];
      MarkLatest(e);
    }

    method ApplyDeviceRegistered(e: RoomEvent) returns (error: Option<ErrorCode>)
      requires e.DeviceRegistered?
      modifies this
      ensures Applied(old(Value()), AfterDeviceRegistered(old(Value()), e), error, Value())
    {
      error := CheckRoom(e.roomId);
      if error.Some? {
        return;
      }
      if phase != Open {
        return Some(Conflict);
      }
      if e.deviceId == "" {
        return Some(InvalidArgument);
      }
      if e.deviceKind == "" {
        return Some(InvalidArgument);
      }
      if e.deviceId in devices {
        return Some(Conflict);
      }
      if !MetricInRange(e.batteryPercent) {
        return Some(InvalidArgument);
      }
      if !MetricInRange(e.signalStrength) {
        return Some(InvalidArgument);
      }
      devices := devices[e.deviceId := Device(e.deviceId, e.deviceKind, e.displayName, true, e.batteryPercent,
                                              e.signalStrength, None, e.occurredAtMs, e.occurredAtMs)];
      MarkLatest(e);
    }

    method ApplyDeviceHeartbeat(e: RoomEvent) returns (error: Option<ErrorCode>)
      requires e.DeviceHeartbeat?
      modifies this
      ensures Applied(old(Value()), AfterDeviceHeartbeat(old(Value()), e), error, Value())
    {
      error := CheckRoom(e.roomId);
      if error.Some? {
        return;
      }
      if e.deviceId !in devices {
        return Some(NotFound);
      }
      if !MetricInRange(e.batteryPercent) {
        return Some(InvalidArgument);
      }
      if !MetricInRange(e.signalStrength) {
        return Some(InvalidArgument);
      }
      var device := devices[e.deviceId].(online := e.online);
      if e.batteryPercent.Some? {
        device := device.(batteryPercent := e.batteryPercent);
      }
      if e.signalStrength.Some? {
        device := device.(signalStrength := e.signalStrength);
      }
      device := device.(lastSeenAtMs := e.occurredAtMs);
      devices := devices[e.deviceId := device];
      MarkLatest(e);
    }

    method ApplyDeviceBound(e: RoomEvent) returns (error: Option<ErrorCode>)
      requires e.DeviceBound?
      modifies this
      ensures Applied(old(Value()), AfterDeviceBound(old(Value()), e), error, Value())
    {
      error := CheckRoom(e.roomId);
      if error.Some? {
        return;
      }
      if phase != Open {
        return Some(Conflict);
      }
      if e.deviceId !in devices {
        return Some(NotFound);
      }
      if e.playerId !in players {
        return Some(NotFound);
      }
      var device := devices[e.deviceId];
      if device.boundPlayerId == Some(e.playerId) {
        return Some(Conflict);
      }
      if device.boundPlayerId.Some? {
        return Some(Conflict);
      }
      if HasBoundDevice(devices, e.playerId) {
        return Some(Conflict);
      }
      device := device.(boundPlayerId := Some(e.playerId));
      device := device.(online := true);
      device := device.(lastSeenAtMs := e.occurredAtMs);
      devices := devices[e.deviceId := device];
      MarkLatest(e);
    }

    method ApplyDeviceUnbound(e: RoomEvent) returns (error: Option<ErrorCode>)
      requires e.DeviceUnbound?
      modifies this
      ensures Applied(old(Value()), AfterDeviceUnbound(old(Value()), e), error, Value())
    {
      error := CheckRoom(e.roomId);
      if error.Some? {
        return;
      }
      if phase != Open {
        return Some(Conflict);
      }
      if e.deviceId !in devices {
        return Some(NotFound);
      }
      var device := devices[e.deviceId];
      if device.boundPlayerId.None? {
        return Some(Conflict);
      }
      device := device.(boundPlayerId := None);
      device := device.(lastSeenAtMs := e.occurredAtMs);
      devices := devices[e.deviceId := device];
      MarkLatest(e);
    }

    method ApplyPositionUpdated(e: RoomEvent) returns (error: Option<ErrorCode>)
      requires e.PositionUpdated?
      modifies this
      ensures Applied(old(Value()), AfterPositionUpdated(old(Value()), e), error, Value())
    {
      error := CheckRoom(e.roomId);
      if error.Some? {
        return;
      }
      if phase != Open && phase != Active {
        return Some(Conflict);
      }
      if e.playerId !in players {
        return Some(NotFound);
      }
      if e.sourceDeviceId !in devices {
        return Some(NotFound);
      }
      if devices[e.sourceDeviceId].boundPlayerId != Some(e.playerId) {
        return Some(Conflict);
      }
      if e.velocityMps < 0.0 {
        return Some(InvalidArgument);
      }
      positions := positions[e.playerId := Position(e.playerId, e.sourceDeviceId, e.x, e.y,
                                                    NormalizeHeading(e.headingDeg), e.velocityMps, e.occurredAtMs)];
      MarkLatest(e);
    }

    method ApplyRoomStarted(e: RoomEvent) returns (error: Option<ErrorCode>)
      requires e.RoomStarted?
      modifies this
      ensures Applied(old(Value()), AfterRoomStarted(old(Value()), e), error, Value())
    {
      error := CheckRoom(e.roomId);
      if error.Some? {
        return;
      }
      if phase != Open {
        return Some(Conflict);
      }
      if players == map[] {
        return Some(Conflict);
      }
      if exists p | p in players :: !players[p].ready {
        return Some(Conflict);
      }
      if e.battleId == "" {
        return Some(InvalidArgument);
      }
      phase := Active;
      battleId := Some(e.battleId);
      MarkLatest(e);
    }

    method ApplyRoomEnded(e: RoomEvent) returns (error: Option<ErrorCode>)
      requires e.RoomEnded?
      modifies this
      ensures Applied(old(Value()), AfterRoomEnded(old(Value()), e), error, Value())
    {
      error := CheckRoom(e.roomId);
      if error.Some? {
        return;
      }
      if phase != Active {
        return Some(Conflict);
      }
      phase := Ended;
      MarkLatest(e);
    }

    method ApplyRoomClosed(e: RoomEvent) returns (error: Option<ErrorCode>)
      requires e.RoomClosed?
      modifies this
      ensures Applied(old(Value()), AfterRoomClosed(old(Value()), e), error, Value())
    {
      error := CheckRoom(e.roomId);
      if error.Some? {
        return;
      }
      if phase == Active {
        return Some(Conflict);
      }
      if phase == Closed {
        return Some(Conflict);
      }
      phase := Closed;
      MarkLatest(e);
    }

    method ApplyEvent(e: RoomEvent) returns (error: Option<ErrorCode>)
      modifies this
      ensures Applied(old(Value()), Apply(old(Value()), e), error, Value())
    {
      hide Value, Applied;
      match e {
        case RoomCreated(_, _, _, _, _, _, _, _, _) => error := ApplyRoomCreated(e);
        case PlayerJoined(_, _, _, _, _, _, _) => error := ApplyPlayerJoined(e);
        case PlayerLeft(_, _, _, _) => error := ApplyPlayerLeft(e);
        case TeamChanged(_, _, _, _, _) => error := ApplyTeamChanged(e);
        case ReadyChanged(_, _, _, _, _) => error := ApplyReadyChanged(e);
        case DeviceRegistered(_, _, _, _, _, _, _, _) => error := ApplyDeviceRegistered(e);
        case DeviceHeartbeat(_, _, _, _, _, _, _) => error := ApplyDeviceHeartbeat(e);
        case DeviceBound(_, _, _, _, _) => error := ApplyDeviceBound(e);
        case DeviceUnbound(_, _, _, _) => error := ApplyDeviceUnbound(e);
        case PositionUpdated(_, _, _, _, _, _, _, _, _) => error := ApplyPositionUpdated(e);
        case RoomStarted(_, _, _, _, _) => error := ApplyRoomStarted(e);
        case RoomEnded(_, _, _) => error := ApplyRoomEnded(e);
        case RoomClosed(_, _, _) => error := ApplyRoomClosed(e);
      }
    }
  }

  /** Once a prefix of the team list is refused, the whole list is refused for the same reason. */
  lemma {:induction false} BadTeamsStayBad(specs: seq<TeamSpec>, n: nat)
    requires n <= |specs| && GatherTeams(specs[..n]).Err?
    ensures GatherTeams(specs) == GatherTeams(specs[..n])
    decreases |specs| - n
  {
    if n < |specs| {
      assert specs[..n + 1][..n] == specs[..n];
      BadTeamsStayBad(specs, n + 1);
    } else {
      assert specs[..n] == specs;
    }
  }
}
