/** Which room events are accepted, and with which error the others are refused, as told by the history of the room. */
module RoomVerdict {
  import opened Basics
  import opened History
  import opened Room
  import opened RoomProtocol
  import opened RoomTheorems
  import opened RoomHistory

  // ---- what the history says ----------------------------------------------------------------

  ghost function PhaseOf(h: seq<RoomEvent>): Phase {
    match Last(PhaseIn(), h) case Some(phase) => phase case None => Open
  }

  /** The seats of the room and its teams, as created. */
  ghost function SeatsOf(h: seq<RoomEvent>): (int, seq<TeamSpec>) {
    var c := Last(CreationIn(), h);
    if c.Some? && c.value.RoomCreated? then (c.value.maxPlayers, c.value.teams) else (0, [])
  }

  ghost predicate Here(h: seq<RoomEvent>, p: string) {
    Last(PresenceIn(p), h) == Some(true)
  }

  /** The roster. */
  ghost function Roster(h: seq<RoomEvent>): set<string> {
    set e <- h | e.PlayerJoined? && Here(h, e.playerId) :: e.playerId
  }

  ghost function InTeam(h: seq<RoomEvent>, t: string): set<string> {
    set p <- Roster(h) | Last(TeamIn(p), h) == Some(t)
  }

  ghost predicate ModuleTaken(h: seq<RoomEvent>, m: string) {
    m != "" && exists e <- h :: e.PlayerJoined? && e.moduleId == m && Here(h, e.playerId)
                                && Last(JoinIn(e.playerId), h) == Some(e)
  }

  /** A team of this name was created, and it has a free seat. */
  ghost predicate SeatIn(h: seq<RoomEvent>, specs: seq<TeamSpec>, t: string) {
    exists i :: 0 <= i < |specs| && specs[i].teamId == t && |InTeam(h, t)| < specs[i].maxPlayers
  }

  ghost predicate Known(h: seq<RoomEvent>, d: string) {
    Last(RegistrationIn(d), h).Some?
  }

  ghost predicate BoundTo(h: seq<RoomEvent>, d: string, p: string) {
    Last(BindingIn(d), h) == Some(Some(p))
  }

  ghost predicate HasDevice(h: seq<RoomEvent>, p: string) {
    exists d :: Known(h, d) && BoundTo(h, d, p)
  }

  predicate OutOfRange(metric: Option<int>) {
    metric.Some? && (metric.value < 0 || metric.value > 100)
  }

  ghost function SeatSum(specs: seq<TeamSpec>): int {
    if specs == [] then 0 else SeatSum(specs[..|specs| - 1]) + specs[|specs| - 1].maxPlayers
  }

  /** The first bad team decides. */
  ghost function TeamsRefusal(specs: seq<TeamSpec>, i: nat): Option<ErrorCode>
    requires i <= |specs|
    decreases |specs| - i
  {
    if i == |specs| then None
    else if specs[i].teamId == "" || specs[i].maxPlayers == 0 then Some(InvalidArgument)
    else if exists j :: 0 <= j < i && specs[j].teamId == specs[i].teamId then Some(Conflict)
    else TeamsRefusal(specs, i + 1)
  }

  ghost function CreationRefusal(h: seq<RoomEvent>, e: RoomEvent): Option<ErrorCode>
    requires e.RoomCreated?
  {
    if h != [] then Some(Conflict)
    else if e.roomId == "" || e.eventId == "" || e.maxPlayers == 0 || e.teams == [] then Some(InvalidArgument)
    else if TeamsRefusal(e.teams, 0).Some? then TeamsRefusal(e.teams, 0)
    else if SeatSum(e.teams) % 0x1_0000_0000 < e.maxPlayers then Some(InvalidArgument)
    else None
  }

  ghost function RosterRefusal(h: seq<RoomEvent>, e: RoomEvent): Option<ErrorCode>
    requires IsRosterEvent(e)
  {
    var (maxPlayers, teams) := SeatsOf(h);
    if !PhaseOf(h).Open? then Some(Conflict)
    else if e.PlayerJoined? then
      if e.playerId == "" then Some(InvalidArgument)
      else if Here(h, e.playerId) || |Roster(h)| >= maxPlayers || ModuleTaken(h, e.moduleId) then Some(Conflict)
      else if !SeatIn(h, teams, e.teamId) then Some(Conflict)
      else None
    else if !Here(h, e.playerId) then Some(NotFound)
    else if e.TeamChanged? && Last(TeamIn(e.playerId), h) != Some(e.teamId) && !SeatIn(h, teams, e.teamId) then
      Some(Conflict)
    else None
  }

  ghost function DeviceRefusal(h: seq<RoomEvent>, e: RoomEvent): Option<ErrorCode>
    requires NamesDevice(e)
  {
    if !e.DeviceHeartbeat? && !PhaseOf(h).Open? then Some(Conflict)
    else match e
      case DeviceRegistered(_, _, _, d, kind, _, battery, signal) =>
        if d == "" || kind == "" then Some(InvalidArgument)
        else if Known(h, d) then Some(Conflict)
        else if OutOfRange(battery) || OutOfRange(signal) then Some(InvalidArgument)
        else None
      case DeviceHeartbeat(_, _, _, d, battery, signal, _) =>
        if !Known(h, d) then Some(NotFound)
        else if OutOfRange(battery) || OutOfRange(signal) then Some(InvalidArgument)
        else None
      case DeviceBound(_, _, _, d, p) =>
        if !Known(h, d) || !Here(h, p) then Some(NotFound)
        else if Last(BindingIn(d), h) != Some(None) || HasDevice(h, p) then Some(Conflict)
        else None
      case DeviceUnbound(_, _, _, d) =>
        if !Known(h, d) then Some(NotFound)
        else if Last(BindingIn(d), h) == Some(None) then Some(Conflict)
        else None
  }

  ghost function OtherRefusal(h: seq<RoomEvent>, e: RoomEvent): Option<ErrorCode>
    requires e.PositionUpdated? || ChangesPhase(e)
  {
    match e
    case PositionUpdated(_, _, _, p, d, _, _, _, velocity) =>
      if !PhaseOf(h).Open? && !PhaseOf(h).Active? then Some(Conflict)
      else if !Here(h, p) || !Known(h, d) then Some(NotFound)
      else if !BoundTo(h, d, p) then Some(Conflict)
      else if velocity < 0.0 then Some(InvalidArgument)
      else None
    case RoomStarted(_, _, _, battle, _) =>
      if !PhaseOf(h).Open? || Roster(h) == {} then Some(Conflict)
      else if exists p <- Roster(h) :: Last(ReadyIn(p), h) != Some(true) then Some(Conflict)
      else if battle == "" then Some(InvalidArgument)
      else None
    case RoomEnded(_, _, _) => if PhaseOf(h).Active? then None else Some(Conflict)
    case RoomClosed(_, _, _) => if PhaseOf(h).Open? || PhaseOf(h).Ended? then None else Some(Conflict)
  }

  /** Why the room with this history refuses e; None if it accepts e. */
  ghost function Refusal(h: seq<RoomEvent>, e: RoomEvent): Option<ErrorCode> {
    if e.RoomCreated? then CreationRefusal(h, e)
    else
      var c := Last(CreationIn(), h);
      if c.None? || c.value.roomId != e.roomId then Some(Conflict)
      else if IsRosterEvent(e) then RosterRefusal(h, e)
      else if NamesDevice(e) then DeviceRefusal(h, e)
      else OtherRefusal(h, e)
  }

  // ---- the state says the same --------------------------------------------------------------

  ghost predicate TellsRoster(s: RoomState, h: seq<RoomEvent>) {
    forall p :: PlayerTold(s.players, h, p)
  }

  ghost predicate TellsDevices(s: RoomState, h: seq<RoomEvent>) {
    forall d :: DeviceTold(s.devices, h, d)
  }

  lemma RosterTold(s: RoomState, h: seq<RoomEvent>)
    requires TellsRoster(s, h)
    ensures Roster(h) == s.players.Keys && |Roster(h)| == |s.players|
  {
    forall p | p in s.players
      ensures p in Roster(h)
    {
      assert PlayerTold(s.players, h, p);
      var i := LastWritten(PresenceIn(p), h);
      assert h[i] in h;
    }
    forall p | p in Roster(h)
      ensures p in s.players
    {
      assert PlayerTold(s.players, h, p);
    }
    assert |s.players.Keys| == |s.players|;
  }

  lemma TeamTold(s: RoomState, h: seq<RoomEvent>, t: string)
    requires TellsRoster(s, h)
    ensures InTeam(h, t) == Members(s.players, t)
  {
    RosterTold(s, h);
    forall p
      ensures p in InTeam(h, t) <==> p in Members(s.players, t)
    {
      assert PlayerTold(s.players, h, p);
    }
  }

  lemma SeatTold(s: RoomState, h: seq<RoomEvent>, specs: seq<TeamSpec>, t: string)
    requires TellsRoster(s, h) && ListsTeams(s.teams, specs)
    requires RosterSound(s.players, s.teams, s.maxPlayers) && TeamsSound(s.players, s.teams)
    ensures TeamHasSeat(s, t) == if SeatIn(h, specs, t) then Ok(()) else Err(Conflict)
  {
    hide RosterSound, TeamsSound;
    SeatFree(s, t);
    TeamTold(s, h, t);
    if t in s.teams {
      var i :| 0 <= i < |specs| && specs[i].teamId == t;
    }
  }

  lemma ModuleTold(s: RoomState, h: seq<RoomEvent>, m: string)
    requires TellsRoster(s, h)
    ensures ModuleTaken(h, m) <==> HasModule(s.players, m)
  {
    if HasModule(s.players, m) {
      var p :| p in s.players && s.players[p].moduleId == m;
      assert PlayerTold(s.players, h, p);
      var i := LastWritten(JoinIn(p), h);
      assert h[i] in h && h[i].playerId == p;
    }
    if ModuleTaken(h, m) {
      var e :| e in h && e.PlayerJoined? && e.moduleId == m && Here(h, e.playerId)
               && Last(JoinIn(e.playerId), h) == Some(e);
      assert PlayerTold(s.players, h, e.playerId);
    }
  }

  lemma BindingTold(s: RoomState, h: seq<RoomEvent>, p: string)
    requires TellsDevices(s, h)
    ensures HasDevice(h, p) <==> HasBoundDevice(s.devices, p)
  {
    if HasDevice(h, p) {
      var d :| Known(h, d) && BoundTo(h, d, p);
      assert DeviceTold(s.devices, h, d);
    }
    if HasBoundDevice(s.devices, p) {
      var d :| d in s.devices && s.devices[d].boundPlayerId == Some(p);
      assert DeviceTold(s.devices, h, d);
      assert Known(h, d) && BoundTo(h, d, p);
    }
  }

  // ---- every kind of event ------------------------------------------------------------------

  ghost function ErrorOf(r: Result<RoomState>): Option<ErrorCode> {
    if r.Err? then Some(r.error) else None
  }

  lemma SeenBefore(specs: seq<TeamSpec>, i: nat)
    requires i < |specs| && GatherTeams(specs[..i]).Ok?
    ensures specs[i].teamId in GatherTeams(specs[..i]).value.0
       <==> exists j :: 0 <= j < i && specs[j].teamId == specs[i].teamId
  {
    hide GatherTeams;
    var front := specs[..i];
    GatheredLists(front);
    if exists j :: 0 <= j < i && specs[j].teamId == specs[i].teamId {
      var j :| 0 <= j < i && specs[j].teamId == specs[i].teamId;
      assert front[j].teamId == specs[i].teamId;
    }
    if specs[i].teamId in GatherTeams(front).value.0 {
      var j :| 0 <= j < |front| && front[j].teamId == specs[i].teamId;
      assert specs[j].teamId == specs[i].teamId;
    }
  }

  lemma GatherOneMore(front: seq<TeamSpec>, team: TeamSpec)
    requires GatherTeams(front).Ok?
    ensures var r := GatherTeams(front + [team]);
            if team.teamId == "" || team.maxPlayers == 0 then r == Err(InvalidArgument)
            else if team.teamId in GatherTeams(front).value.0 then r == Err(Conflict)
            else r.Ok?
  {
    assert (front + [team])[..|front|] == front;
  }

  lemma {:induction false} TeamsVerdict(specs: seq<TeamSpec>, i: nat)
    requires i <= |specs| && GatherTeams(specs[..i]).Ok?
    ensures TeamsRefusal(specs, i) == if GatherTeams(specs).Err? then Some(GatherTeams(specs).error) else None
    decreases |specs| - i
  {
    hide GatherTeams;
    if i < |specs| {
      assert specs[..i + 1] == specs[..i] + [specs[i]];
      GatherOneMore(specs[..i], specs[i]);
      SeenBefore(specs, i);
      if GatherTeams(specs[..i + 1]).Err? {
        BadTeamsStayBad(specs, i + 1);
      } else {
        TeamsVerdict(specs, i + 1);
      }
    } else {
      assert specs[..i] == specs;
    }
  }

  lemma SumStep(total: int, sum: int, more: int)
    requires total % TWO_32 == sum
    ensures (total + more) % TWO_32 == (sum + more) % TWO_32
  {
  }

  lemma {:induction false} SeatSumTold(specs: seq<TeamSpec>)
    requires GatherTeams(specs).Ok?
    ensures GatherTeams(specs).value.1 == SeatSum(specs) % TWO_32
  {
    if specs != [] {
      SeatSumTold(specs[..|specs| - 1]);
      SumStep(SeatSum(specs[..|specs| - 1]), GatherTeams(specs[..|specs| - 1]).value.1, specs[|specs| - 1].maxPlayers);
    }
  }

  lemma CreationVerdict(s: RoomState, h: seq<RoomEvent>, e: RoomEvent)
    requires SettingsTold(s, h) && e.RoomCreated?
    requires h != [] ==> Last(CreationIn(), h).Some?
    ensures ErrorOf(Apply(s, e)) == CreationRefusal(h, e)
  {
    hide TeamsRefusal, ListsTeams;
    assert e.teams[..0] == [];
    TeamsVerdict(e.teams, 0);
    if GatherTeams(e.teams).Ok? {
      SeatSumTold(e.teams);
    }
  }

  lemma RosterVerdict(s: RoomState, h: seq<RoomEvent>, e: RoomEvent)
    requires SettingsTold(s, h) && ProgressTold(s, h) && TellsRoster(s, h) && Last(CreationIn(), h).Some?
    requires RosterSound(s.players, s.teams, s.maxPlayers) && TeamsSound(s.players, s.teams)
    requires IsRosterEvent(e) && e.roomId == s.roomId
    ensures ErrorOf(Apply(s, e)) == RosterRefusal(h, e)
  {
    hide RosterSound, TeamsSound, ListsTeams, TeamHasSeat, HasModule, ModuleTaken, SeatIn, Roster, Last;
    RosterTold(s, h);
    assert PlayerTold(s.players, h, e.playerId);
    if e.PlayerJoined? {
      ModuleTold(s, h, e.moduleId);
      SeatTold(s, h, SeatsOf(h).1, e.teamId);
    } else if e.TeamChanged? {
      SeatTold(s, h, SeatsOf(h).1, e.teamId);
      if e.playerId in s.players {
        TeamListed(s, e.playerId);
      }
    }
  }

  lemma TeamListed(s: RoomState, p: string)
    requires RosterSound(s.players, s.teams, s.maxPlayers) && p in s.players
    ensures s.players[p].teamId in s.teams
  {
    assert PlayerSound(p, s.players[p], s.teams);
  }

  lemma DeviceVerdict(s: RoomState, h: seq<RoomEvent>, e: RoomEvent)
    requires ProgressTold(s, h) && TellsRoster(s, h) && TellsDevices(s, h)
    requires NamesDevice(e) && e.roomId == s.roomId != ""
    ensures ErrorOf(Apply(s, e)) == DeviceRefusal(h, e)
  {
    hide HasDevice, HasBoundDevice, Last;
    assert DeviceTold(s.devices, h, e.deviceId);
    if e.DeviceBound? {
      assert PlayerTold(s.players, h, e.playerId);
      BindingTold(s, h, e.playerId);
    }
  }

  lemma OtherVerdict(s: RoomState, h: seq<RoomEvent>, e: RoomEvent)
    requires ProgressTold(s, h) && TellsRoster(s, h) && TellsDevices(s, h)
    requires (e.PositionUpdated? || ChangesPhase(e)) && e.roomId == s.roomId != ""
    ensures ErrorOf(Apply(s, e)) == OtherRefusal(h, e)
  {
    hide NormalizeHeading, Roster, Last, AllReady;
    if e.PositionUpdated? {
      assert PlayerTold(s.players, h, e.playerId) && DeviceTold(s.devices, h, e.sourceDeviceId);
    } else if e.RoomStarted? {
      RosterTold(s, h);
      ReadyTold(s, h);
    }
  }

  lemma ReadyTold(s: RoomState, h: seq<RoomEvent>)
    requires TellsRoster(s, h)
    ensures AllReady(s.players) <==> !exists p <- Roster(h) :: Last(ReadyIn(p), h) != Some(true)
    ensures s.players == map[] <==> Roster(h) == {}
  {
    RosterTold(s, h);
    forall p | p in s.players
      ensures s.players[p].ready <==> Last(ReadyIn(p), h) == Some(true)
    {
      assert PlayerTold(s.players, h, p);
    }
    if exists p <- Roster(h) :: Last(ReadyIn(p), h) != Some(true) {
      var p :| p in Roster(h) && Last(ReadyIn(p), h) != Some(true);
      assert p in s.players && !s.players[p].ready;
    }
  }

  lemma NotInRoom(s: RoomState, e: RoomEvent)
    requires !e.RoomCreated? && !(s.roomId != "" && s.roomId == e.roomId)
    ensures Apply(s, e) == Err(Conflict)
  {
    hide HasModule, HasBoundDevice, NormalizeHeading, MetricInRange, AllReady, GatherTeams, TeamHasSeat;
  }

  lemma InvariantHasSeats(s: RoomState, ever: set<string>)
    requires RoomInvariant(s, ever)
    ensures RosterSound(s.players, s.teams, s.maxPlayers) && TeamsSound(s.players, s.teams)
  {
  }

  /**
   * The verdict on the next event of every reachable room: it is accepted exactly when its history gives no reason
   * to refuse it, and otherwise it is refused with the error that the history gives.
   */
  lemma HistoryDecides(h: seq<RoomEvent>, e: RoomEvent)
    requires AllDecoded(h) && RunFrom(EMPTY_ROOM, h).Ok?
    ensures ErrorOf(Apply(RunFrom(EMPTY_ROOM, h).value, e)) == Refusal(h, e)
  {
    hide RunFrom, Apply, RoomInvariant, PlayerTold, DeviceTold, PositionTold, RosterRefusal, DeviceRefusal,
      OtherRefusal, CreationRefusal, RosterSound, TeamsSound, ListsTeams, Last;
    var s := RunFrom(EMPTY_ROOM, h).value;
    RoomIsHistory(h);
    ReachableInvariant(h);
    InvariantHasSeats(s, EverJoined(h));
    if e.RoomCreated? {
      CreationVerdict(s, h, e);
    } else if s.roomId == "" || s.roomId != e.roomId {
      NotInRoom(s, e);
    } else if IsRosterEvent(e) {
      RosterVerdict(s, h, e);
    } else if NamesDevice(e) {
      DeviceVerdict(s, h, e);
    } else {
      OtherVerdict(s, h, e);
    }
  }
}
