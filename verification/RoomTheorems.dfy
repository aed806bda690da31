/** What every room keeps over every run of accepted events. */
module RoomTheorems {
  import opened Basics
  import opened Sums
  import opened Room
  import opened RoomProtocol

  /** The state after a run of accepted events; an error if one of them is refused. */
  ghost function RunFrom(s: RoomState, events: seq<RoomEvent>): Result<RoomState> {
    if events == [] then Ok(s)
    else
      var before :- RunFrom(s, events[..|events| - 1]);
      Apply(before, events[|events| - 1])
  }

  ghost predicate AllDecoded(events: seq<RoomEvent>) {
    forall e <- events :: WithinLimits(e)
  }

  /** The players that have joined at some time, whether or not they left again. */
  ghost function EverJoined(events: seq<RoomEvent>): set<string> {
    set e <- events | e.PlayerJoined? :: e.playerId
  }

  // ---- invariant ----------------------------------------------------------------------------

  ghost predicate PlayerSound(p: string, player: Player, teams: map<string, TeamSpec>) {
    player.playerId == p && p != "" && player.displayName != "" && player.teamId != "" && player.teamId in teams
  }

  ghost predicate RosterSound(players: map<string, Player>, teams: map<string, TeamSpec>, maxPlayers: int) {
    |players| <= maxPlayers < TWO_32 && forall p | p in players :: PlayerSound(p, players[p], teams)
  }

  ghost predicate ModulesDistinct(players: map<string, Player>) {
    forall p, q | p in players && q in players && p != q ::
      players[p].moduleId == players[q].moduleId ==> players[p].moduleId == ""
  }

  ghost predicate WithinCapacity(players: map<string, Player>, t: string, team: TeamSpec) {
    t != "" && team.teamId == t && team.maxPlayers > 0 && |Members(players, t)| <= team.maxPlayers
  }

  ghost predicate TeamsSound(players: map<string, Player>, teams: map<string, TeamSpec>) {
    forall t | t in teams :: WithinCapacity(players, t, teams[t])
  }

  ghost function CapacityIn(teams: map<string, TeamSpec>): string -> int {
    (t: string) => if t in teams then teams[t].maxPlayers else 0
  }

  /** The true sum of the capacities of all teams. */
  ghost function Capacity(teams: map<string, TeamSpec>): int {
    Total(teams.Keys, CapacityIn(teams))
  }

  ghost predicate DeviceSound(d: string, device: Device, ever: set<string>) {
    && device.deviceId == d
    && MetricInRange(device.batteryPercent) && MetricInRange(device.signalStrength)
    && (device.boundPlayerId.Some? ==> device.boundPlayerId.value in ever)
  }

  /** No player has two devices. */
  ghost predicate BindingInjective(devices: map<string, Device>) {
    forall d, d' | d in devices && d' in devices && d != d' ::
      devices[d].boundPlayerId == devices[d'].boundPlayerId ==> devices[d].boundPlayerId == None
  }

  ghost predicate DevicesSound(devices: map<string, Device>, ever: set<string>) {
    BindingInjective(devices) && forall d | d in devices :: DeviceSound(d, devices[d], ever)
  }

  ghost predicate PositionSound(p: string, position: Position, devices: map<string, Device>, ever: set<string>) {
    && position.playerId == p && p in ever
    && position.sourceDeviceId in devices
    && 0.0 <= position.headingDeg < 360.0
    && position.velocityMps >= 0.0
  }

  ghost predicate PositionsSound(positions: map<string, Position>, devices: map<string, Device>, ever: set<string>) {
    forall p | p in positions :: PositionSound(p, positions[p], devices, ever)
  }

  /** A room that has been started keeps a non-empty roster that is all ready, and its battle. */
  ghost predicate StartedSound(s: RoomState) {
    && (s.phase.Open? ==> s.battleId == None)
    && (s.phase.Active? || s.phase.Ended? ==> s.battleId.Some?)
    && (s.battleId.Some? ==> s.battleId.value != "" && s.players != map[] && AllReady(s.players))
  }

  ghost predicate CreatedSound(s: RoomState) {
    if s.roomId == "" then s == EMPTY_ROOM else s.name != "" && s.mode != "" && s.maxPlayers > 0
  }

  ghost predicate RoomInvariant(s: RoomState, ever: set<string>) {
    && RosterSound(s.players, s.teams, s.maxPlayers)
    && s.players.Keys <= ever
    && ModulesDistinct(s.players)
    && TeamsSound(s.players, s.teams)
    && Capacity(s.teams) >= s.maxPlayers
    && DevicesSound(s.devices, ever)
    && PositionsSound(s.positions, s.devices, ever)
    && StartedSound(s)
    && CreatedSound(s)
  }

  lemma MembersOfMore(players: map<string, Player>, p: string, player: Player, t: string)
    ensures Members(players[p := player], t)
         == (Members(players, t) - {p}) + (if player.teamId == t then {p} else {})
  {
  }

  lemma MembersBound(players: map<string, Player>, t: string)
    ensures |Members(players, t)| <= |players|
  {
    assert Members(players, t) <= players.Keys;
    SubsetSize(Members(players, t), players.Keys);
  }

  lemma {:induction false} SubsetSize(a: set<string>, b: set<string>)
    requires a <= b
    ensures |a| <= |b|
  {
    assert b == a + (b - a);
  }

  lemma CapacityAdded(teams: map<string, TeamSpec>, team: TeamSpec)
    requires team.teamId !in teams
    ensures Capacity(teams[team.teamId := team]) == Capacity(teams) + team.maxPlayers
  {
    TotalChange(teams.Keys, CapacityIn(teams), CapacityIn(teams[team.teamId := team]), team.teamId);
    assert teams[team.teamId := team].Keys == teams.Keys + {team.teamId};
  }

  lemma TruncatedSum(total: int, sum: int, more: int)
    requires total % TWO_32 == sum && more >= 0 && total + more >= 0
    ensures (total + more) % TWO_32 == (sum + more) % TWO_32 <= total + more
  {
  }

  /** The teams are well named and not empty, and sum is their capacity cut off at 32 bits. */
  ghost predicate Gathered(teams: map<string, TeamSpec>, sum: UInt32) {
    && (forall t | t in teams :: t != "" && teams[t].teamId == t && teams[t].maxPlayers > 0)
    && Capacity(teams) % TWO_32 == sum
    && sum <= Capacity(teams)
  }

  lemma GatheredOneMore(teams: map<string, TeamSpec>, sum: UInt32, team: TeamSpec)
    requires Gathered(teams, sum) && team.teamId !in teams && team.teamId != "" && team.maxPlayers > 0
    ensures Gathered(teams[team.teamId := team], (sum + team.maxPlayers) % TWO_32)
  {
    hide Capacity;
    CapacityAdded(teams, team);
    TruncatedSum(Capacity(teams), sum, team.maxPlayers);
  }

  /** The 32-bit sum of capacities never exceeds the true sum, so it may be trusted as a lower bound. */
  lemma {:induction false} GatheredTeams(specs: seq<TeamSpec>)
    requires GatherTeams(specs).Ok?
    ensures Gathered(GatherTeams(specs).value.0, GatherTeams(specs).value.1)
  {
    if specs == [] {
      NothingGathered();
    } else {
      hide Gathered;
      GatheredTeams(specs[..|specs| - 1]);
      var before := GatherTeams(specs[..|specs| - 1]).value;
      GatheredOneMore(before.0, before.1, specs[|specs| - 1]);
    }
  }

  lemma NothingGathered()
    ensures Gathered(map[], 0)
  {
  }

  lemma HeadingInRange(heading: real)
    ensures 0.0 <= NormalizeHeading(heading) < 360.0
  {
    var m, q := 360.0, (if heading >= 0.0 then heading / 360.0 else -heading / 360.0);
    assert q.Floor as real <= q < q.Floor as real + 1.0;
  }

  lemma CreateKeeps(s: RoomState, e: RoomEvent, ever: set<string>)
    requires e.RoomCreated? && WithinLimits(e) && RoomInvariant(s, ever) && Apply(s, e).Ok?
    ensures RoomInvariant(Apply(s, e).value, ever)
  {
    GatheredTeams(e.teams);
    var s' := Apply(s, e).value;
    forall t | t in s'.teams
      ensures WithinCapacity(s'.players, t, s'.teams[t])
    {
      assert Members(map[], t) == {};
    }
  }

  /** A player takes a free seat in a team. */
  lemma SeatTaken(players: map<string, Player>, teams: map<string, TeamSpec>, p: string, player: Player)
    requires TeamsSound(players, teams) && player.teamId in teams
    requires (p in players && players[p].teamId == player.teamId)
          || |Members(players, player.teamId)| < teams[player.teamId].maxPlayers
    ensures TeamsSound(players[p := player], teams)
  {
    forall t | t in teams
      ensures WithinCapacity(players[p := player], t, teams[t])
    {
      assert WithinCapacity(players, t, teams[t]);
      MembersOfMore(players, p, player, t);
      SubsetSize(Members(players, t) - {p}, Members(players, t));
      if p in players && players[p].teamId == t {
        assert p in Members(players, t);
      }
    }
  }

  lemma SeatFree(s: RoomState, t: string)
    requires RosterSound(s.players, s.teams, s.maxPlayers) && TeamsSound(s.players, s.teams)
    ensures TeamHasSeat(s, t).Ok? <==> t in s.teams && |Members(s.players, t)| < s.teams[t].maxPlayers
  {
    MembersBound(s.players, t);
    if t in s.teams {
      assert WithinCapacity(s.players, t, s.teams[t]);
    }
  }

  /** Bindings and positions refer to the history, which only grows. */
  lemma HistoryGrows(s: RoomState, ever: set<string>, more: set<string>)
    requires DevicesSound(s.devices, ever) && PositionsSound(s.positions, s.devices, ever)
    ensures DevicesSound(s.devices, ever + more) && PositionsSound(s.positions, s.devices, ever + more)
  {
    forall d | d in s.devices
      ensures DeviceSound(d, s.devices[d], ever + more)
    {
      assert DeviceSound(d, s.devices[d], ever);
    }
    forall p | p in s.positions
      ensures PositionSound(p, s.positions[p], s.devices, ever + more)
    {
      assert PositionSound(p, s.positions[p], s.devices, ever);
    }
  }

  lemma PlayerAdded(s: RoomState, p: string, player: Player)
    requires RosterSound(s.players, s.teams, s.maxPlayers) && ModulesDistinct(s.players)
    requires p !in s.players && |s.players| < s.maxPlayers
    requires PlayerSound(p, player, s.teams) && !HasModule(s.players, player.moduleId)
    ensures RosterSound(s.players[p := player], s.teams, s.maxPlayers) && ModulesDistinct(s.players[p := player])
    ensures s.players[p := player].Keys == s.players.Keys + {p}
  {
    hide PlayerSound, HasModule;
    ModuleAdded(s.players, p, player);
    hide ModulesDistinct;
    var after := s.players[p := player];
    assert after.Keys == s.players.Keys + {p};
    assert |after| == |after.Keys| == |s.players.Keys| + 1 && |s.players.Keys| == |s.players|;
    forall q | q in after
      ensures PlayerSound(q, after[q], s.teams)
    {
    }
  }

  lemma ModuleAdded(players: map<string, Player>, p: string, player: Player)
    requires ModulesDistinct(players) && p !in players && !HasModule(players, player.moduleId)
    ensures ModulesDistinct(players[p := player])
  {
    forall q | q in players
      ensures players[q].moduleId == player.moduleId ==> player.moduleId == ""
    {
    }
  }

  lemma JoinKeeps(s: RoomState, e: RoomEvent, ever: set<string>)
    requires e.PlayerJoined? && WithinLimits(e) && RoomInvariant(s, ever) && Apply(s, e).Ok?
    ensures RoomInvariant(Apply(s, e).value, ever + {e.playerId})
  {
    SeatFree(s, e.teamId);
    var player := Player(e.playerId, e.displayName, e.teamId, e.moduleId, false, e.occurredAtMs);
    PlayerAdded(s, e.playerId, player);
    SeatTaken(s.players, s.teams, e.playerId, player);
    HistoryGrows(s, ever, {e.playerId});
  }

  lemma LeaveKeeps(s: RoomState, e: RoomEvent, ever: set<string>)
    requires e.PlayerLeft? && RoomInvariant(s, ever) && Apply(s, e).Ok?
    ensures RoomInvariant(Apply(s, e).value, ever)
  {
    var s' := Apply(s, e).value;
    assert s'.players.Keys == s.players.Keys - {e.playerId};
    SubsetSize(s'.players.Keys, s.players.Keys);
    forall t | t in s.teams
      ensures WithinCapacity(s'.players, t, s.teams[t])
    {
      assert WithinCapacity(s.players, t, s.teams[t]);
      SubsetSize(Members(s'.players, t), Members(s.players, t));
    }
  }

  /** A player of the roster changes team or readiness. */
  lemma PlayerReplaced(s: RoomState, p: string, player: Player)
    requires RosterSound(s.players, s.teams, s.maxPlayers) && ModulesDistinct(s.players)
    requires p in s.players && PlayerSound(p, player, s.teams) && player.moduleId == s.players[p].moduleId
    ensures RosterSound(s.players[p := player], s.teams, s.maxPlayers) && ModulesDistinct(s.players[p := player])
    ensures s.players[p := player].Keys == s.players.Keys
  {
    assert s.players[p := player].Keys == s.players.Keys;
    assert |s.players[p := player].Keys| == |s.players[p := player]|;
    assert |s.players.Keys| == |s.players|;
  }

  lemma TeamChangeKeeps(s: RoomState, e: RoomEvent, ever: set<string>)
    requires e.TeamChanged? && RoomInvariant(s, ever) && Apply(s, e).Ok? && WithinLimits(e)
    ensures RoomInvariant(Apply(s, e).value, ever)
  {
    var player := s.players[e.playerId].(teamId := e.teamId);
    SeatFree(s, e.teamId);
    SeatTaken(s.players, s.teams, e.playerId, player);
    PlayerReplaced(s, e.playerId, player);
  }

  /** Readiness does not matter for what makes a player sound. */
  lemma SamePlayerSound(s: RoomState, p: string)
    requires RosterSound(s.players, s.teams, s.maxPlayers) && p in s.players
    ensures forall ready :: PlayerSound(p, s.players[p].(ready := ready), s.teams)
    ensures s.players[p].teamId in s.teams
  {
    assert PlayerSound(p, s.players[p], s.teams);
  }

  lemma ReadyKeeps(s: RoomState, e: RoomEvent, ever: set<string>)
    requires e.ReadyChanged? && RoomInvariant(s, ever) && Apply(s, e).Ok?
    ensures RoomInvariant(Apply(s, e).value, ever)
  {
    hide RosterSound, ModulesDistinct, TeamsSound, Capacity, DevicesSound, PositionsSound;
    SamePlayerSound(s, e.playerId);
    var player := s.players[e.playerId].(ready := e.ready);
    SeatTaken(s.players, s.teams, e.playerId, player);
    PlayerReplaced(s, e.playerId, player);
  }

  /** A change of one device that keeps its name, or a new unbound one. */
  lemma DeviceReplaced(devices: map<string, Device>, ever: set<string>, d: string, device: Device)
    requires DevicesSound(devices, ever) && DeviceSound(d, device, ever)
    requires device.boundPlayerId == None
          || (d in devices && device.boundPlayerId == devices[d].boundPlayerId)
          || !HasBoundDevice(devices, device.boundPlayerId.value)
    ensures DevicesSound(devices[d := device], ever)
  {
  }

  lemma PositionsKept(positions: map<string, Position>, devices: map<string, Device>, ever: set<string>,
                      d: string, device: Device)
    requires PositionsSound(positions, devices, ever)
    ensures PositionsSound(positions, devices[d := device], ever)
  {
    forall p | p in positions
      ensures PositionSound(p, positions[p], devices[d := device], ever)
    {
      assert PositionSound(p, positions[p], devices, ever);
    }
  }

  lemma DevicesOf(devices: map<string, Device>, ever: set<string>)
    requires DevicesSound(devices, ever)
    ensures forall d | d in devices :: DeviceSound(d, devices[d], ever)
  {
  }

  lemma DeviceKeeps(s: RoomState, e: RoomEvent, ever: set<string>)
    requires e.DeviceRegistered? || e.DeviceHeartbeat? || e.DeviceBound? || e.DeviceUnbound?
    requires RoomInvariant(s, ever) && Apply(s, e).Ok?
    ensures RoomInvariant(Apply(s, e).value, ever)
  {
    hide RosterSound, ModulesDistinct, TeamsSound, Capacity, DevicesSound, PositionsSound;
    var s' := Apply(s, e).value;
    DevicesOf(s.devices, ever);
    if e.deviceId in s.devices {
      assert DeviceSound(e.deviceId, s.devices[e.deviceId], ever);
    }
    DeviceReplaced(s.devices, ever, e.deviceId, s'.devices[e.deviceId]);
    PositionsKept(s.positions, s.devices, ever, e.deviceId, s'.devices[e.deviceId]);
  }

  lemma PositionKeeps(s: RoomState, e: RoomEvent, ever: set<string>)
    requires e.PositionUpdated? && RoomInvariant(s, ever) && Apply(s, e).Ok?
    ensures RoomInvariant(Apply(s, e).value, ever)
  {
    HeadingInRange(e.headingDeg);
    var s' := Apply(s, e).value;
    forall p | p in s'.positions
      ensures PositionSound(p, s'.positions[p], s'.devices, ever)
    {
      if p != e.playerId {
        assert PositionSound(p, s.positions[p], s.devices, ever);
      }
    }
  }

  lemma PhaseKeeps(s: RoomState, e: RoomEvent, ever: set<string>)
    requires e.RoomStarted? || e.RoomEnded? || e.RoomClosed?
    requires RoomInvariant(s, ever) && Apply(s, e).Ok?
    ensures RoomInvariant(Apply(s, e).value, ever)
  {
    hide RosterSound, ModulesDistinct, TeamsSound, Capacity, DevicesSound, PositionsSound;
  }

  ghost function JoinedBy(e: RoomEvent): set<string> {
    if e.PlayerJoined? then {e.playerId} else {}
  }

  lemma InvariantKept(s: RoomState, e: RoomEvent, ever: set<string>)
    requires RoomInvariant(s, ever) && WithinLimits(e) && Apply(s, e).Ok?
    ensures RoomInvariant(Apply(s, e).value, ever + JoinedBy(e))
  {
    hide RoomInvariant, Apply, WithinLimits;
    assert !e.PlayerJoined? ==> ever + JoinedBy(e) == ever;
    match e {
      case RoomCreated(_, _, _, _, _, _, _, _, _) => CreateKeeps(s, e, ever);
      case PlayerJoined(_, _, _, _, _, _, _) => JoinKeeps(s, e, ever);
      case PlayerLeft(_, _, _, _) => LeaveKeeps(s, e, ever);
      case TeamChanged(_, _, _, _, _) => TeamChangeKeeps(s, e, ever);
      case ReadyChanged(_, _, _, _, _) => ReadyKeeps(s, e, ever);
      case PositionUpdated(_, _, _, _, _, _, _, _, _) => PositionKeeps(s, e, ever);
      case RoomStarted(_, _, _, _, _) => PhaseKeeps(s, e, ever);
      case RoomEnded(_, _, _) => PhaseKeeps(s, e, ever);
      case RoomClosed(_, _, _) => PhaseKeeps(s, e, ever);
      case _ => DeviceKeeps(s, e, ever);
    }
  }

  lemma JoinedMore(events: seq<RoomEvent>)
    requires events != []
    ensures EverJoined(events) == EverJoined(events[..|events| - 1]) + JoinedBy(events[|events| - 1])
  {
    assert events == events[..|events| - 1] + [events[|events| - 1]];
  }

  lemma EmptyInvariant()
    ensures RoomInvariant(EMPTY_ROOM, EverJoined([]))
  {
  }

  /** Every reachable room satisfies the invariant, with everyone who ever joined as its history. */
  lemma {:induction false} ReachableInvariant(events: seq<RoomEvent>)
    requires AllDecoded(events) && RunFrom(EMPTY_ROOM, events).Ok?
    ensures RoomInvariant(RunFrom(EMPTY_ROOM, events).value, EverJoined(events))
  {
    if events != [] {
      var front, e := events[..|events| - 1], events[|events| - 1];
      ReachableInvariant(front);
      InvariantKept(RunFrom(EMPTY_ROOM, front).value, e, EverJoined(front));
      JoinedMore(events);
    } else {
      EmptyInvariant();
    }
  }

  // ---- an open room that is not full has a seat ---------------------------------------------

  ghost function CountIn(players: map<string, Player>): string -> int {
    (t: string) => |Members(players, t)|
  }

  /** The teams partition the players. */
  lemma {:induction false} TeamsPartition(players: map<string, Player>, teams: set<string>)
    requires forall p | p in players :: players[p].teamId in teams
    ensures Total(teams, CountIn(players)) == |players|
    decreases |players|
  {
    if players == map[] {
      forall t | t in teams
        ensures CountIn(players)(t) == 0
      {
        assert Members(players, t) == {};
      }
      TotalZero(teams, CountIn(players));
    } else {
      var p :| p in players;
      var rest, t := players - {p}, players[p].teamId;
      TeamsPartition(rest, teams);
      assert players == rest[p := players[p]];
      OneMoreMember(rest, teams, p, players[p]);
    }
  }

  lemma OneMoreMember(players: map<string, Player>, teams: set<string>, p: string, player: Player)
    requires p !in players && player.teamId in teams
    ensures Total(teams, CountIn(players[p := player])) == Total(teams, CountIn(players)) + 1
  {
    var t := player.teamId;
    forall k | k in teams
      ensures CountIn(players[p := player])(k) == CountIn(players)(k) + (if k == t then 1 else 0)
    {
      MembersOfMore(players, p, player, k);
    }
    TotalChange(teams, CountIn(players), CountIn(players[p := player]), t);
    assert teams + {t} == teams;
  }

  /** Pigeonhole: with a place left in the room, some team has a place left. */
  lemma FreeTeam(s: RoomState, ever: set<string>) returns (t: string)
    requires RoomInvariant(s, ever) && |s.players| < s.maxPlayers
    ensures t in s.teams && |Members(s.players, t)| < s.teams[t].maxPlayers
  {
    TeamsPartition(s.players, s.teams.Keys) by {
      forall p | p in s.players
        ensures s.players[p].teamId in s.teams
      {
        assert PlayerSound(p, s.players[p], s.teams);
      }
    }
    if forall t | t in s.teams :: |Members(s.players, t)| >= s.teams[t].maxPlayers {
      TotalMonotone(s.teams.Keys, CapacityIn(s.teams), CountIn(s.players));
      assert false;
    }
    t :| t in s.teams && |Members(s.players, t)| < s.teams[t].maxPlayers;
  }

  /** A join of a new player with a new module, or none. */
  ghost predicate FreshJoin(s: RoomState, e: RoomEvent) {
    && e.PlayerJoined? && e.roomId == s.roomId
    && e.playerId != "" && e.playerId !in s.players
    && !HasModule(s.players, e.moduleId)
  }

  /** Team t takes every new player. */
  ghost predicate TakesAnyone(s: RoomState, t: string) {
    forall e | FreshJoin(s, e) && e.teamId == t :: Apply(s, e).Ok?
  }

  lemma {:induction false} FreshName(names: set<string>) returns (x: string)
    ensures x !in names && x != ""
    ensures forall y | y in names :: |y| < |x|
  {
    if names == {} {
      x := "p";
    } else {
      var y :| y in names;
      x := FreshName(names - {y});
      x := x + y;
    }
  }

  /** An open room can take another player exactly while it has fewer than its maximum. */
  lemma Joinable(events: seq<RoomEvent>)
    requires AllDecoded(events) && RunFrom(EMPTY_ROOM, events).Ok?
    requires var s := RunFrom(EMPTY_ROOM, events).value; s.roomId != "" && s.phase.Open?
    ensures var s := RunFrom(EMPTY_ROOM, events).value;
            (exists t :: TakesAnyone(s, t)) <==> |s.players| < s.maxPlayers
  {
    ReachableInvariant(events);
    var s := RunFrom(EMPTY_ROOM, events).value;
    if |s.players| < s.maxPlayers {
      var t := FreeTeam(s, EverJoined(events));
      SeatFree(s, t);
      assert TakesAnyone(s, t);
    } else if exists t :: TakesAnyone(s, t) {
      var t :| TakesAnyone(s, t);
      var p := FreshName(s.players.Keys);
      assert FreshJoin(s, PlayerJoined(s.roomId, "e", 0, p, p, t, ""));
      assert false;
    }
  }

  // ---- every open room can be started -------------------------------------------------------

  lemma {:induction false} RunConcat(s: RoomState, a: seq<RoomEvent>, b: seq<RoomEvent>)
    requires RunFrom(s, a).Ok?
    ensures RunFrom(s, a + b) == RunFrom(RunFrom(s, a).value, b)
  {
    if b == [] {
      assert a + b == a;
    } else {
      assert (a + b)[..|a + b| - 1] == a + b[..|b| - 1];
      RunConcat(s, a, b[..|b| - 1]);
    }
  }

  lemma RunFirst(s: RoomState, e: RoomEvent, rest: seq<RoomEvent>)
    requires Apply(s, e).Ok?
    ensures RunFrom(s, [e] + rest) == RunFrom(Apply(s, e).value, rest)
  {
    assert [e][..0] == [];
    assert RunFrom(s, [e]) == Apply(s, e);
    RunConcat(s, [e], rest);
  }

  ghost function Unready(players: map<string, Player>): set<string> {
    set p | p in players && !players[p].ready
  }

  /** The accepted events that start an open room with players: one for each unready player, then the start. */
  lemma {:induction false} StartFromRoster(s: RoomState, battleId: string) returns (events: seq<RoomEvent>)
    requires s.roomId != "" && s.phase.Open? && s.players != map[] && battleId != ""
    ensures AllDecoded(events) && |events| == |Unready(s.players)| + 1
    ensures RunFrom(s, events).Ok?
    ensures RunFrom(s, events).value.phase.Active? && RunFrom(s, events).value.battleId == Some(battleId)
    decreases |Unready(s.players)|
  {
    if Unready(s.players) == {} {
      assert AllReady(s.players) by {
        forall p | p in s.players
          ensures s.players[p].ready
        {
          assert p !in Unready(s.players);
        }
      }
      var e := RoomStarted(s.roomId, "start", 0, battleId, 1);
      events := [e];
      RunFirst(s, e, []);
      assert [e] + [] == events;
    } else {
      var p :| p in Unready(s.players);
      var e := ReadyChanged(s.roomId, "ready", 0, p, true);
      var next := Apply(s, e).value;
      assert Unready(next.players) == Unready(s.players) - {p};
      assert p in next.players;
      var rest := StartFromRoster(next, battleId);
      events := [e] + rest;
      RunFirst(s, e, rest);
    }
  }

  /** Every reachable open room can still be started, in at most three events more than it has unready players. */
  lemma Startable(events: seq<RoomEvent>, battleId: string) returns (more: seq<RoomEvent>)
    requires AllDecoded(events) && RunFrom(EMPTY_ROOM, events).Ok? && battleId != ""
    requires var s := RunFrom(EMPTY_ROOM, events).value; s.roomId != "" && s.phase.Open?
    ensures AllDecoded(more) && |more| <= |Unready(RunFrom(EMPTY_ROOM, events).value.players)| + 3
    ensures RunFrom(EMPTY_ROOM, events + more).Ok?
    ensures RunFrom(EMPTY_ROOM, events + more).value.phase.Active?
    ensures RunFrom(EMPTY_ROOM, events + more).value.battleId == Some(battleId)
  {
    ReachableInvariant(events);
    var s := RunFrom(EMPTY_ROOM, events).value;
    if s.players == map[] {
      var t := FreeTeam(s, EverJoined(events));
      SeatFree(s, t);
      var e := PlayerJoined(s.roomId, "join", 0, "p", "p", t, "");
      assert WithinCapacity(s.players, t, s.teams[t]);
      var next := Apply(s, e).value;
      assert "p" in next.players && Unready(next.players) == {"p"};
      var rest := StartFromRoster(next, battleId);
      more := [e] + rest;
      RunFirst(s, e, rest);
    } else {
      more := StartFromRoster(s, battleId);
    }
    RunConcat(EMPTY_ROOM, events, more);
  }

  // ---- lifecycle ----------------------------------------------------------------------------

  function Rank(phase: Phase): nat {
    match phase
    case Open => 0
    case Active => 1
    case Ended => 2
    case Closed => 3
  }

  ghost predicate SameBindings(before: map<string, Device>, after: map<string, Device>) {
    && after.Keys == before.Keys
    && forall d | d in before :: after[d].boundPlayerId == before[d].boundPlayerId
  }

  /** What heartbeats may change: devices apart from their bindings, and the marks of the latest event. */
  ghost predicate HeartbeatsOnly(s: RoomState, s': RoomState) {
    && SameBindings(s.devices, s'.devices)
    && s' == s.(devices := s'.devices, latestEventId := s'.latestEventId, updatedAtMs := s'.updatedAtMs)
  }

  /** s' can come after the created room s. */
  ghost predicate Later(s: RoomState, s': RoomState) {
    && Rank(s.phase) <= Rank(s'.phase)
    && s'.roomId == s.roomId && s'.name == s.name && s'.mode == s.mode && s'.roomCode == s.roomCode
    && s'.teams == s.teams && s'.maxPlayers == s.maxPlayers
    && s'.hostPlayerId == s.hostPlayerId && s'.createdAtMs == s.createdAtMs
    && s.devices.Keys <= s'.devices.Keys && s.positions.Keys <= s'.positions.Keys
    && (!s.phase.Open? ==>
          s'.players == s.players && s'.battleId == s.battleId && SameBindings(s.devices, s'.devices))
    && (s.phase.Closed? ==> HeartbeatsOnly(s, s'))
  }

  lemma OneStepLater(s: RoomState, e: RoomEvent)
    requires s.roomId != "" && Apply(s, e).Ok?
    ensures Later(s, Apply(s, e).value)
    ensures s.phase.Closed? ==> e.DeviceHeartbeat?
  {
    hide GatherTeams, TeamHasSeat, HasModule, HasBoundDevice, MetricInRange, NormalizeHeading, AllReady;
  }

  /**
   * Over any run of a created room the phase rank never decreases; roster, bindings and battle are fixed once the
   * room has left the open phase; a closed room accepts heartbeats only, which change nothing else.
   */
  lemma {:induction false} Lifecycle(s: RoomState, more: seq<RoomEvent>)
    requires s.roomId != "" && RunFrom(s, more).Ok?
    ensures Later(s, RunFrom(s, more).value)
    ensures s.phase.Closed? ==> forall e <- more :: e.DeviceHeartbeat?
  {
    if more != [] {
      Lifecycle(s, more[..|more| - 1]);
      OneStepLater(RunFrom(s, more[..|more| - 1]).value, more[|more| - 1]);
    }
  }
}
