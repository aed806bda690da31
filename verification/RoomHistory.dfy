/**
 * A room is what its history says: each part of the state is what the last event concerned with it has written, and
 * whether an event is accepted, or with which error it is refused, is decided by the history alone.
 */
module RoomHistory {
  import opened Basics
  import opened History
  import opened Room
  import opened RoomProtocol
  import opened RoomTheorems

  // ---- what events write --------------------------------------------------------------------

  function CreationIn(): RoomEvent -> Option<RoomEvent> {
    (e: RoomEvent) => if e.RoomCreated? then Some(e) else None
  }

  function PhaseIn(): RoomEvent -> Option<Phase> {
    (e: RoomEvent) =>
      match e
      case RoomCreated(_, _, _, _, _, _, _, _, _) => Some(Open)
      case RoomStarted(_, _, _, _, _) => Some(Active)
      case RoomEnded(_, _, _) => Some(Ended)
      case RoomClosed(_, _, _) => Some(Closed)
      case _ => None
  }

  function BattleIn(): RoomEvent -> Option<string> {
    (e: RoomEvent) => if e.RoomStarted? then Some(e.battleId) else None
  }

  function AnyIn(): RoomEvent -> Option<RoomEvent> {
    (e: RoomEvent) => Some(e)
  }

  /** Whether p is in the roster. */
  function PresenceIn(p: string): RoomEvent -> Option<bool> {
    (e: RoomEvent) =>
      if e.PlayerJoined? && e.playerId == p then Some(true)
      else if e.PlayerLeft? && e.playerId == p then Some(false)
      else None
  }

  function JoinIn(p: string): RoomEvent -> Option<RoomEvent> {
    (e: RoomEvent) => if e.PlayerJoined? && e.playerId == p then Some(e) else None
  }

  function TeamIn(p: string): RoomEvent -> Option<string> {
    (e: RoomEvent) => if (e.PlayerJoined? || e.TeamChanged?) && e.playerId == p then Some(e.teamId) else None
  }

  function ReadyIn(p: string): RoomEvent -> Option<bool> {
    (e: RoomEvent) =>
      if e.PlayerJoined? && e.playerId == p then Some(false)
      else if e.ReadyChanged? && e.playerId == p then Some(e.ready)
      else None
  }

  function RegistrationIn(d: string): RoomEvent -> Option<RoomEvent> {
    (e: RoomEvent) => if e.DeviceRegistered? && e.deviceId == d then Some(e) else None
  }

  function OnlineIn(d: string): RoomEvent -> Option<bool> {
    (e: RoomEvent) =>
      if (e.DeviceRegistered? || e.DeviceBound?) && e.deviceId == d then Some(true)
      else if e.DeviceHeartbeat? && e.deviceId == d then Some(e.online)
      else None
  }

  /** A heartbeat that does not report the battery does not write it. */
  function BatteryIn(d: string): RoomEvent -> Option<Option<int>> {
    (e: RoomEvent) =>
      if e.DeviceRegistered? && e.deviceId == d then Some(e.batteryPercent)
      else if e.DeviceHeartbeat? && e.deviceId == d && e.batteryPercent.Some? then Some(e.batteryPercent)
      else None
  }

  function SignalIn(d: string): RoomEvent -> Option<Option<int>> {
    (e: RoomEvent) =>
      if e.DeviceRegistered? && e.deviceId == d then Some(e.signalStrength)
      else if e.DeviceHeartbeat? && e.deviceId == d && e.signalStrength.Some? then Some(e.signalStrength)
      else None
  }

  function BindingIn(d: string): RoomEvent -> Option<Option<string>> {
    (e: RoomEvent) =>
      if (e.DeviceRegistered? || e.DeviceUnbound?) && e.deviceId == d then Some(None)
      else if e.DeviceBound? && e.deviceId == d then Some(Some(e.playerId))
      else None
  }

  function SeenIn(d: string): RoomEvent -> Option<int> {
    (e: RoomEvent) => if NamesDevice(e) && e.deviceId == d then Some(e.occurredAtMs) else None
  }

  function ReportIn(p: string): RoomEvent -> Option<RoomEvent> {
    (e: RoomEvent) => if e.PositionUpdated? && e.playerId == p then Some(e) else None
  }

  // ---- the state that the history tells -----------------------------------------------------

  /** The map holds exactly the listed teams. */
  ghost predicate ListsTeams(teams: map<string, TeamSpec>, specs: seq<TeamSpec>) {
    && (forall i | 0 <= i < |specs| :: specs[i].teamId in teams && teams[specs[i].teamId] == specs[i])
    && forall t | t in teams :: exists i :: 0 <= i < |specs| && specs[i].teamId == t
  }

  ghost predicate SettingsTold(s: RoomState, h: seq<RoomEvent>) {
    match Last(CreationIn(), h)
    case None => h == [] && s == EMPTY_ROOM
    case Some(c) =>
      && c.RoomCreated?
      && s.roomId == c.roomId != "" && s.roomCode == c.roomCode && s.name == c.name && s.mode == c.mode
      && s.hostPlayerId == c.hostPlayerId && s.maxPlayers == c.maxPlayers && s.createdAtMs == c.occurredAtMs
      && ListsTeams(s.teams, c.teams)
  }

  ghost predicate ProgressTold(s: RoomState, h: seq<RoomEvent>) {
    && s.phase == (match Last(PhaseIn(), h) case Some(phase) => phase case None => Open)
    && s.battleId == Last(BattleIn(), h)
    && match Last(AnyIn(), h)
       case None => s.latestEventId == None
       case Some(e) => s.latestEventId == Some(e.eventId) && s.updatedAtMs == e.occurredAtMs
  }

  ghost predicate PlayerTold(players: map<string, Player>, h: seq<RoomEvent>, p: string) {
    && (p in players <==> Last(PresenceIn(p), h) == Some(true))
    && (p in players ==>
          && Last(JoinIn(p), h).Some?
          && var joined := Last(JoinIn(p), h).value;
             && joined.PlayerJoined?
             && players[p].playerId == p
             && players[p].displayName == joined.displayName
             && players[p].moduleId == joined.moduleId
             && players[p].joinedAtMs == joined.occurredAtMs
             && Some(players[p].teamId) == Last(TeamIn(p), h)
             && Some(players[p].ready) == Last(ReadyIn(p), h))
  }

  ghost predicate DeviceTold(devices: map<string, Device>, h: seq<RoomEvent>, d: string) {
    match Last(RegistrationIn(d), h)
    case None => d !in devices
    case Some(r) =>
      && r.DeviceRegistered?
      && d in devices
      && devices[d].deviceId == d
      && devices[d].deviceKind == r.deviceKind
      && devices[d].displayName == r.displayName
      && devices[d].registeredAtMs == r.occurredAtMs
      && Some(devices[d].online) == Last(OnlineIn(d), h)
      && Some(devices[d].batteryPercent) == Last(BatteryIn(d), h)
      && Some(devices[d].signalStrength) == Last(SignalIn(d), h)
      && Some(devices[d].boundPlayerId) == Last(BindingIn(d), h)
      && Some(devices[d].lastSeenAtMs) == Last(SeenIn(d), h)
  }

  ghost function Turned(heading: real, turns: int): real {
    heading + 360.0 * turns as real
  }

  /** The same direction, in [0, 360). */
  ghost predicate SameDirection(raw: real, heading: real) {
    0.0 <= heading < 360.0 && exists turns :: heading == Turned(raw, turns)
  }

  ghost predicate PositionTold(positions: map<string, Position>, h: seq<RoomEvent>, p: string) {
    match Last(ReportIn(p), h)
    case None => p !in positions
    case Some(r) =>
      && r.PositionUpdated?
      && p in positions
      && positions[p].playerId == p
      && positions[p].sourceDeviceId == r.sourceDeviceId
      && positions[p].x == r.x && positions[p].y == r.y
      && SameDirection(r.headingDeg, positions[p].headingDeg)
      && positions[p].velocityMps == r.velocityMps
      && positions[p].updatedAtMs == r.occurredAtMs
  }

  ghost predicate Told(s: RoomState, h: seq<RoomEvent>) {
    && SettingsTold(s, h)
    && ProgressTold(s, h)
    && (forall p :: PlayerTold(s.players, h, p))
    && (forall d :: DeviceTold(s.devices, h, d))
    && (forall p :: PositionTold(s.positions, h, p))
  }

  // ---- one more event -----------------------------------------------------------------------

  lemma {:induction false} GatheredLists(specs: seq<TeamSpec>)
    requires GatherTeams(specs).Ok?
    ensures ListsTeams(GatherTeams(specs).value.0, specs)
  {
    if specs != [] {
      var front, last := specs[..|specs| - 1], specs[|specs| - 1];
      GatheredLists(front);
      var before, after := GatherTeams(front).value.0, GatherTeams(specs).value.0;
      assert specs[|front|].teamId == last.teamId;
      forall t | t in after
        ensures exists i :: 0 <= i < |specs| && specs[i].teamId == t
      {
        if t != last.teamId {
          var i :| 0 <= i < |front| && front[i].teamId == t;
          assert specs[i].teamId == t;
        }
      }
      forall i | 0 <= i < |specs|
        ensures specs[i].teamId in after && after[specs[i].teamId] == specs[i]
      {
        if i < |front| {
          assert front[i].teamId in before;
        }
      }
    }
  }

  lemma NormalizedDirection(x: real)
    ensures SameDirection(x, NormalizeHeading(x))
  {
    HeadingInRange(x);
    var turns := if x >= 0.0 then -(x / 360.0).Floor else (-x / 360.0).Floor;
    assert NormalizeHeading(x) == Turned(x, turns) || NormalizeHeading(x) == Turned(x, turns + 1);
  }

  lemma SettingsStep(s: RoomState, h: seq<RoomEvent>, e: RoomEvent, s': RoomState)
    requires SettingsTold(s, h) && Apply(s, e) == Ok(s')
    ensures SettingsTold(s', h + [e])
  {
    LastOneMore(CreationIn(), h, e);
    if e.RoomCreated? {
      GatheredLists(e.teams);
    } else {
      hide ListsTeams, GatherTeams;
      SettingsKept(s, e, s');
    }
  }

  lemma SettingsKept(s: RoomState, e: RoomEvent, s': RoomState)
    requires !e.RoomCreated? && Apply(s, e) == Ok(s')
    ensures s.roomId != ""
    ensures s' == s.(phase := s'.phase, battleId := s'.battleId, players := s'.players, devices := s'.devices,
                     positions := s'.positions, latestEventId := s'.latestEventId, updatedAtMs := s'.updatedAtMs)
  {
    hide HasModule, HasBoundDevice, NormalizeHeading, MetricInRange, AllReady;
  }

  lemma ProgressStep(s: RoomState, h: seq<RoomEvent>, e: RoomEvent, s': RoomState)
    requires ProgressTold(s, h) && SettingsTold(s, h) && Apply(s, e) == Ok(s')
    ensures ProgressTold(s', h + [e])
  {
    hide HasModule, HasBoundDevice, NormalizeHeading, MetricInRange, AllReady, GatherTeams, ListsTeams;
    LastOneMore(PhaseIn(), h, e);
    LastOneMore(BattleIn(), h, e);
    LastOneMore(AnyIn(), h, e);
  }

  predicate IsRosterEvent(e: RoomEvent) {
    e.PlayerJoined? || e.PlayerLeft? || e.TeamChanged? || e.ReadyChanged?
  }

  lemma CreatedFirst(s: RoomState, h: seq<RoomEvent>, e: RoomEvent, s': RoomState)
    requires SettingsTold(s, h) && Apply(s, e) == Ok(s') && e.RoomCreated?
    ensures s == EMPTY_ROOM && s'.players == map[] && s'.devices == map[] && s'.positions == map[]
  {
    hide GatherTeams, ListsTeams;
  }

  lemma RosterKeeps(s: RoomState, e: RoomEvent, s': RoomState)
    requires IsRosterEvent(e) && Apply(s, e) == Ok(s')
    ensures s'.devices == s.devices && s'.positions == s.positions
  {
    hide HasModule, TeamHasSeat, InRoom, IsOpen;
    if e.PlayerJoined? {
      assert s' == Latest(s.(players := s'.players), e);
    } else if e.PlayerLeft? {
      assert s' == Latest(s.(players := s'.players), e);
    } else if e.TeamChanged? {
      assert s' == Latest(s.(players := s'.players), e);
    } else {
      assert s' == Latest(s.(players := s'.players), e);
    }
  }

  lemma DeviceKeeps(s: RoomState, e: RoomEvent, s': RoomState)
    requires NamesDevice(e) && Apply(s, e) == Ok(s')
    ensures s'.players == s.players && s'.positions == s.positions
  {
    hide HasBoundDevice, MetricInRange;
  }

  lemma PhaseKeeps(s: RoomState, e: RoomEvent, s': RoomState)
    requires (ChangesPhase(e) || e.PositionUpdated?) && Apply(s, e) == Ok(s')
    ensures s'.players == s.players && s'.devices == s.devices
    ensures !e.PositionUpdated? ==> s'.positions == s.positions
  {
    hide NormalizeHeading, AllReady;
  }

  /** Only a creation replaces anything else than what it names, and then there was nothing. */
  lemma OthersKeep(s: RoomState, h: seq<RoomEvent>, e: RoomEvent, s': RoomState)
    requires SettingsTold(s, h) && Apply(s, e) == Ok(s')
    ensures !IsRosterEvent(e) ==> s'.players == s.players
    ensures !NamesDevice(e) ==> s'.devices == s.devices
    ensures !e.PositionUpdated? ==> s'.positions == s.positions
  {
    hide Apply, SettingsTold;
    if e.RoomCreated? {
      CreatedFirst(s, h, e, s');
    } else if IsRosterEvent(e) {
      RosterKeeps(s, e, s');
    } else if NamesDevice(e) {
      DeviceKeeps(s, e, s');
    } else {
      PhaseKeeps(s, e, s');
    }
  }

  lemma JoinLeaveStep(s: RoomState, h: seq<RoomEvent>, e: RoomEvent, s': RoomState, p: string)
    requires PlayerTold(s.players, h, p) && (e.PlayerJoined? || e.PlayerLeft?) && Apply(s, e) == Ok(s')
    ensures PlayerTold(s'.players, h + [e], p)
  {
    hide HasModule, TeamHasSeat, InRoom, IsOpen, Last;
    LastOneMore(PresenceIn(p), h, e);
    LastOneMore(JoinIn(p), h, e);
    LastOneMore(TeamIn(p), h, e);
    LastOneMore(ReadyIn(p), h, e);
  }

  lemma ChangeStep(s: RoomState, h: seq<RoomEvent>, e: RoomEvent, s': RoomState, p: string)
    requires PlayerTold(s.players, h, p) && (e.TeamChanged? || e.ReadyChanged?) && Apply(s, e) == Ok(s')
    ensures PlayerTold(s'.players, h + [e], p)
  {
    hide TeamHasSeat, InRoom, IsOpen, Last;
    LastOneMore(PresenceIn(p), h, e);
    LastOneMore(JoinIn(p), h, e);
    LastOneMore(TeamIn(p), h, e);
    LastOneMore(ReadyIn(p), h, e);
  }

  lemma PlayerStep(s: RoomState, h: seq<RoomEvent>, e: RoomEvent, s': RoomState, p: string)
    requires PlayerTold(s.players, h, p) && SettingsTold(s, h) && Apply(s, e) == Ok(s')
    ensures PlayerTold(s'.players, h + [e], p)
  {
    hide Apply, Last, SettingsTold;
    if e.PlayerJoined? || e.PlayerLeft? {
      JoinLeaveStep(s, h, e, s', p);
    } else if e.TeamChanged? || e.ReadyChanged? {
      ChangeStep(s, h, e, s', p);
    } else {
      OthersKeep(s, h, e, s');
      LastOneMore(PresenceIn(p), h, e);
      LastOneMore(JoinIn(p), h, e);
      LastOneMore(TeamIn(p), h, e);
      LastOneMore(ReadyIn(p), h, e);
    }
  }

  lemma DeviceWrites(h: seq<RoomEvent>, e: RoomEvent, d: string)
    ensures Last(RegistrationIn(d), h + [e])
         == if RegistrationIn(d)(e).Some? then RegistrationIn(d)(e) else Last(RegistrationIn(d), h)
    ensures Last(OnlineIn(d), h + [e]) == if OnlineIn(d)(e).Some? then OnlineIn(d)(e) else Last(OnlineIn(d), h)
    ensures Last(BatteryIn(d), h + [e]) == if BatteryIn(d)(e).Some? then BatteryIn(d)(e) else Last(BatteryIn(d), h)
    ensures Last(SignalIn(d), h + [e]) == if SignalIn(d)(e).Some? then SignalIn(d)(e) else Last(SignalIn(d), h)
    ensures Last(BindingIn(d), h + [e]) == if BindingIn(d)(e).Some? then BindingIn(d)(e) else Last(BindingIn(d), h)
    ensures Last(SeenIn(d), h + [e]) == if SeenIn(d)(e).Some? then SeenIn(d)(e) else Last(SeenIn(d), h)
  {
    hide Last;
    LastOneMore(RegistrationIn(d), h, e);
    LastOneMore(OnlineIn(d), h, e);
    LastOneMore(BatteryIn(d), h, e);
    LastOneMore(SignalIn(d), h, e);
    LastOneMore(BindingIn(d), h, e);
    LastOneMore(SeenIn(d), h, e);
  }

  lemma ReportStep(s: RoomState, h: seq<RoomEvent>, e: RoomEvent, s': RoomState, d: string)
    requires DeviceTold(s.devices, h, d) && (e.DeviceRegistered? || e.DeviceHeartbeat?) && Apply(s, e) == Ok(s')
    ensures DeviceTold(s'.devices, h + [e], d)
  {
    hide MetricInRange, Last;
    DeviceWrites(h, e, d);
  }

  lemma BindingStep(s: RoomState, h: seq<RoomEvent>, e: RoomEvent, s': RoomState, d: string)
    requires DeviceTold(s.devices, h, d) && (e.DeviceBound? || e.DeviceUnbound?) && Apply(s, e) == Ok(s')
    ensures DeviceTold(s'.devices, h + [e], d)
  {
    hide HasBoundDevice, Last;
    DeviceWrites(h, e, d);
  }

  lemma DeviceStep(s: RoomState, h: seq<RoomEvent>, e: RoomEvent, s': RoomState, d: string)
    requires DeviceTold(s.devices, h, d) && SettingsTold(s, h) && Apply(s, e) == Ok(s')
    ensures DeviceTold(s'.devices, h + [e], d)
  {
    hide Apply, Last, SettingsTold;
    if e.DeviceRegistered? || e.DeviceHeartbeat? {
      ReportStep(s, h, e, s', d);
    } else if e.DeviceBound? || e.DeviceUnbound? {
      BindingStep(s, h, e, s', d);
    } else {
      OthersKeep(s, h, e, s');
      DeviceWrites(h, e, d);
    }
  }

  lemma PositionStep(s: RoomState, h: seq<RoomEvent>, e: RoomEvent, s': RoomState, p: string)
    requires PositionTold(s.positions, h, p) && SettingsTold(s, h) && Apply(s, e) == Ok(s')
    ensures PositionTold(s'.positions, h + [e], p)
  {
    hide NormalizeHeading, SameDirection, Last, SettingsTold;
    LastOneMore(ReportIn(p), h, e);
    if e.PositionUpdated? {
      NormalizedDirection(e.headingDeg);
    } else {
      hide Apply;
      OthersKeep(s, h, e, s');
    }
  }

  /** Every reachable room is what its history tells. */
  lemma {:induction false} RoomIsHistory(h: seq<RoomEvent>)
    requires RunFrom(EMPTY_ROOM, h).Ok?
    ensures Told(RunFrom(EMPTY_ROOM, h).value, h)
  {
    if h != [] {
      hide Apply, SettingsTold, ProgressTold, PlayerTold, DeviceTold, PositionTold;
      var front, e := h[..|h| - 1], h[|h| - 1];
      assert h == front + [e];
      RoomIsHistory(front);
      var s, s' := RunFrom(EMPTY_ROOM, front).value, RunFrom(EMPTY_ROOM, h).value;
      SettingsStep(s, front, e, s');
      ProgressStep(s, front, e, s');
      forall p
        ensures PlayerTold(s'.players, h, p) && PositionTold(s'.positions, h, p)
      {
        PlayerStep(s, front, e, s', p);
        PositionStep(s, front, e, s', p);
      }
      forall d
        ensures DeviceTold(s'.devices, h, d)
      {
        DeviceStep(s, front, e, s', d);
      }
    }
  }
}
