/** When starting the battle of a room succeeds, what it makes, and that it can be resumed and repeated. */
module BootstrapTheorems {
  import opened Basics
  import opened Ordering
  import opened Wire
  import Battle
  import BattleProtocol
  import Room
  import RoomTheorems
  import opened EventSourcing
  import opened Recovery
  import opened Batch
  import opened Bootstrap
  import ApRuntime

  // ---- the battle of a room -----------------------------------------------------------------

  ghost function Fighter(p: Room.Player): Battle.Player {
    Battle.Player(p.playerId, p.displayName, p.teamId, p.moduleId, 100, 0, true, 0, 0)
  }

  ghost predicate TeamNeeded(players: map<string, Room.Player>, ids: set<string>, t: string) {
    exists p :: p in ids && p in players && players[p].teamId == t
  }

  ghost predicate Fielded(player: Room.Player, fighters: map<string, Battle.Player>, teams: map<string, Battle.Team>,
                          p: string) {
    p in fighters && fighters[p] == Fighter(player) && player.teamId in teams
  }

  /** The fighters are those of the given players, and the teams are theirs, without score. */
  ghost predicate FieldedFrom(players: map<string, Room.Player>, ids: set<string>,
                              fighters: map<string, Battle.Player>, teams: map<string, Battle.Team>) {
    && fighters.Keys == ids
    && ids <= players.Keys
    && (forall p | p in ids :: Fielded(players[p], fighters, teams, p))
    && (forall t | t in teams :: teams[t] == Battle.Team(t, 0) && TeamNeeded(players, ids, t))
  }

  /** The battle right after its start: the room's roster, everyone at 100 health, every team without score. */
  ghost predicate IsBattleOf(room: Room.RoomState, at: int, b: Battle.BattleState) {
    && FieldedFrom(room.players, room.players.Keys, b.players, b.teams)
    && Some(b.battleId) == room.battleId
    && b.phase.Active? && b.mode == room.mode && b.startedAtMs == Some(at) && b.endedAtMs == None
    && b.latestEventId == Some(StartId(room))
  }

  ghost function First(room: Room.RoomState, n: nat): set<string>
    requires n <= |PlayerOrder(room)|
  {
    set p <- PlayerOrder(room)[..n]
  }

  /** b is the battle after n joins. */
  ghost predicate IsLobby(room: Room.RoomState, n: nat, b: Battle.BattleState)
    requires n <= |PlayerOrder(room)|
  {
    if n == 0 then b == Battle.EMPTY_BATTLE
    else
      && FieldedFrom(room.players, First(room, n), b.players, b.teams)
      && Some(b.battleId) == room.battleId
      && b.phase.Lobby? && b.startedAtMs == None && b.endedAtMs == None
  }

  /** A room that has been started; every reachable room with a battle is one. */
  ghost predicate Started(room: Room.RoomState) {
    && room.battleId.Some? && room.battleId.value != ""
    && room.players != map[] && room.mode != ""
    && forall p | p in room.players :: RoomTheorems.PlayerSound(p, room.players[p], room.teams)
  }

  lemma ReachableStarted(events: seq<Room.RoomEvent>)
    requires RoomTheorems.AllDecoded(events) && RoomTheorems.RunFrom(Room.EMPTY_ROOM, events).Ok?
    requires RoomTheorems.RunFrom(Room.EMPTY_ROOM, events).value.battleId.Some?
    ensures Started(RoomTheorems.RunFrom(Room.EMPTY_ROOM, events).value)
  {
    RoomTheorems.ReachableInvariant(events);
  }

  // ---- one join -----------------------------------------------------------------------------

  lemma JoinDecodes(room: Room.RoomState, player: Room.Player, sequence: nat, at: int)
    requires room.battleId.Some?
    requires player.playerId != "" && player.displayName != "" && player.teamId != ""
    ensures BattleProtocol.ToCoreEvent(JoinEnvelope(room, player, sequence, at))
         == if player.moduleId == "" then Err(InvalidPayload)
            else Ok(Battle.PlayerJoined(room.battleId.value, JoinId(room, player.playerId), at, player.playerId,
                                        player.displayName, player.teamId, player.moduleId))
  {
    var p := JoinEnvelope(room, player, sequence, at).payload;
    assert Field(p, "player_id") == Some(Str(player.playerId));
    assert Field(p, "display_name") == Some(Str(player.displayName));
    assert Field(p, "team_id") == Some(Str(player.teamId));
    assert Field(p, "module_id") == Some(Str(player.moduleId));
  }

  lemma StartDecodes(room: Room.RoomState, sequence: nat, at: int, duration: int)
    requires room.battleId.Some? && room.mode != "" && duration > 0
    ensures BattleProtocol.ToCoreEvent(StartEnvelope(room, sequence, at, duration))
         == Ok(Battle.BattleStarted(room.battleId.value, StartId(room), at, room.mode, duration))
  {
    var p := StartEnvelope(room, sequence, at, duration).payload;
    assert Field(p, "mode") == Some(Str(room.mode));
    assert Field(p, "duration_ms") == Some(Int(duration));
  }

  ghost function JoinEvent(room: Room.RoomState, n: nat, at: int): Battle.BattleEvent
    requires room.battleId.Some? && n < |PlayerOrder(room)|
  {
    var player := room.players[PlayerOrder(room)[n]];
    Battle.PlayerJoined(room.battleId.value, JoinId(room, player.playerId), at, player.playerId, player.displayName,
                        player.teamId, player.moduleId)
  }

  lemma OneMorePlayer(room: Room.RoomState, n: nat)
    requires n < |PlayerOrder(room)|
    ensures var p := PlayerOrder(room)[n];
            && p in room.players && p !in First(room, n)
            && First(room, n) <= room.players.Keys
            && First(room, n + 1) == First(room, n) + {p}
  {
    var keys := PlayerOrder(room);
    assert keys[..n + 1] == keys[..n] + [keys[n]];
  }

  lemma AllPlayers(room: Room.RoomState)
    ensures First(room, |PlayerOrder(room)|) == room.players.Keys
    ensures |PlayerOrder(room)| == |room.players|
  {
    assert |room.players.Keys| == |room.players|;
    assert PlayerOrder(room)[..|PlayerOrder(room)|] == PlayerOrder(room);
  }

  lemma FieldOneMore(players: map<string, Room.Player>, ids: set<string>, fighters: map<string, Battle.Player>,
                     teams: map<string, Battle.Team>, p: string)
    requires FieldedFrom(players, ids, fighters, teams) && p in players
    ensures var t := players[p].teamId;
            FieldedFrom(players, ids + {p}, fighters[p := Fighter(players[p])], teams[t := Battle.TeamOrNew(teams, t)])
  {
    var fighters' := fighters[p := Fighter(players[p])];
    var teams' := teams[players[p].teamId := Battle.TeamOrNew(teams, players[p].teamId)];
    assert p in ids + {p};
    forall q | q in ids + {p}
      ensures Fielded(players[q], fighters', teams', q)
    {
      assert q != p ==> Fielded(players[q], fighters, teams, q);
    }
    forall t | t in teams'
      ensures teams'[t] == Battle.Team(t, 0) && TeamNeeded(players, ids + {p}, t)
    {
      if t in teams {
        var q :| q in ids && q in players && players[q].teamId == t;
        assert q in ids + {p};
      }
    }
  }

  lemma LobbyStep(room: Room.RoomState, n: nat, at: int, b: Battle.BattleState)
    requires Started(room) && n < |PlayerOrder(room)| && IsLobby(room, n, b)
    ensures Battle.Apply(b, JoinEvent(room, n, at)).Ok?
    ensures IsLobby(room, n + 1, Battle.Apply(b, JoinEvent(room, n, at)).value)
  {
    hide SortedKeys;
    OneMorePlayer(room, n);
    var p := PlayerOrder(room)[n];
    assert RoomTheorems.PlayerSound(p, room.players[p], room.teams);
    assert First(room, 0) == {};
    assert FieldedFrom(room.players, First(room, n), b.players, b.teams);
    hide FieldedFrom, First;
    FieldOneMore(room.players, First(room, n), b.players, b.teams, p);
  }

  lemma StartStep(room: Room.RoomState, at: int, duration: int, b: Battle.BattleState)
    requires Started(room) && IsLobby(room, |PlayerOrder(room)|, b)
    ensures var e := Battle.BattleStarted(room.battleId.value, StartId(room), at, room.mode, duration);
            Battle.Apply(b, e).Ok? && IsBattleOf(room, at, Battle.Apply(b, e).value)
  {
    hide SortedKeys, FieldedFrom, First;
    AllPlayers(room);
  }

  // ---- the whole plan -----------------------------------------------------------------------

  /** No event from the bootstrap source with a sequence above zero has been accepted yet. */
  ghost predicate SourceUnused<S>(live: EventSourcing.Runtime<S>) {
    SOURCE in live.latest ==> live.latest[SOURCE] == 0
  }

  ghost predicate FreshEvents<S>(live: EventSourcing.Runtime<S>, room: Room.RoomState) {
    && (forall p | p in room.players :: JoinId(room, p) !in live.accepted)
    && StartId(room) !in live.accepted
  }

  ghost predicate AllModules(room: Room.RoomState) {
    forall p | p in room.players :: room.players[p].moduleId != ""
  }

  ghost function Envelopes(log: seq<Record>): seq<Envelope> {
    seq(|log|, i requires 0 <= i < |log| => log[i].envelope)
  }

  ghost predicate IsJoinId(room: Room.RoomState, n: nat, id: string)
    requires n <= |PlayerOrder(room)|
  {
    exists p :: p in First(room, n) && id == JoinId(room, p)
  }

  lemma JoinIdsDiffer(room: Room.RoomState, p: string, q: string)
    ensures JoinId(room, p) == JoinId(room, q) ==> p == q
    ensures JoinId(room, p) != StartId(room)
  {
    var prefix := room.roomId + "-battle-join-";
    assert JoinId(room, p)[|prefix|..] == p && JoinId(room, q)[|prefix|..] == q;
    assert JoinId(room, p)[|room.roomId| + 8] == 'j' && StartId(room)[|room.roomId| + 8] == 's';
  }

  /** v is w after the first n joins. */
  ghost predicate Progress(w: BattleWorld, room: Room.RoomState, at: int, n: nat, v: BattleWorld)
    requires room.battleId.Some? && n <= |PlayerOrder(room)|
  {
    var id := room.battleId.value;
    && Envelopes(v.log) == Envelopes(w.log) + Joins(room, at, n)
    && (forall e | e in v.live.accepted :: e in w.live.accepted || IsJoinId(room, n, e))
    && (if n == 0 then v.live.latest == w.live.latest else SOURCE in v.live.latest && v.live.latest[SOURCE] == n)
    && v.live.states == (if n == 0 then w.live.states
                         else w.live.states[id := StateOf(ApRuntime.BattleRules(), v.live.states, id)])
    && IsLobby(room, n, StateOf(ApRuntime.BattleRules(), v.live.states, id))
  }

  lemma NoProgress(w: BattleWorld, room: Room.RoomState, at: int)
    requires room.battleId.Some? && room.battleId.value !in w.live.states
    ensures Progress(w, room, at, 0, w)
  {
  }

  lemma ProgressLobby(w: BattleWorld, room: Room.RoomState, at: int, n: nat, v: BattleWorld)
    requires room.battleId.Some? && n <= |PlayerOrder(room)| && Progress(w, room, at, n, v)
    ensures IsLobby(room, n, StateOf(ApRuntime.BattleRules(), v.live.states, room.battleId.value))
  {
  }

  /** The next event of the plan is new and not stale. */
  lemma NextIsNew(w: BattleWorld, room: Room.RoomState, at: int, n: nat, v: BattleWorld, eventId: string)
    requires Started(room) && n <= |PlayerOrder(room)| && Progress(w, room, at, n, v)
    requires SourceUnused(w.live) && FreshEvents(w.live, room)
    requires if n < |PlayerOrder(room)| then eventId == JoinId(room, PlayerOrder(room)[n]) else eventId == StartId(room)
    ensures eventId !in v.live.accepted
    ensures SOURCE in v.live.latest ==> v.live.latest[SOURCE] < n + 1
  {
    hide Joins, IsLobby, SortedKeys;
    if eventId in v.live.accepted {
      if n < |PlayerOrder(room)| {
        OneMorePlayer(room, n);
      }
      assert IsJoinId(room, n, eventId);
      var q :| q in First(room, n) && eventId == JoinId(room, q);
      if n < |PlayerOrder(room)| {
        JoinIdsDiffer(room, PlayerOrder(room)[n], q);
      } else {
        JoinIdsDiffer(room, q, q);
      }
      assert false;
    }
  }

  lemma EnvelopesOneMore(log: seq<Record>, r: Record)
    ensures Envelopes(log + [r]) == Envelopes(log) + [r.envelope]
  {
  }

  /** An admissible event is accepted when the disk works, and this is the world it leads to. */
  lemma Accepts<S, E>(rules: Rules<S, E>, v: World<S>, e: Envelope, io: Io, after: S) returns (v': World<S>)
    requires Admissible(rules, v.live, e, after) && io.diskOk
    ensures SubmitIo(rules, v, e, io).0 == v' && Passed(SubmitIo(rules, v, e, io).1)
    ensures v'.live.states == v.live.states[e.subject := after]
    ensures v'.live.accepted == v.live.accepted[e.eventId := e]
    ensures v'.live.latest == v.live.latest[e.sourceId := e.sequence]
    ensures Envelopes(v'.log) == Envelopes(v.log) + [e]
  {
    JudgeAdmits(rules, v.live, e, after);
    v' := SubmitIo(rules, v, e, io).0;
    EnvelopesOneMore(v.log, Record(e, io.receivedAt, io.acceptedAt, v.live.acceptance + 1));
  }

  lemma JoinApplies(room: Room.RoomState, at: int, n: nat, states: map<string, Battle.BattleState>)
    requires Started(room) && n < |PlayerOrder(room)| && AllModules(room)
    requires IsLobby(room, n, StateOf(ApRuntime.BattleRules(), states, room.battleId.value))
    ensures var join := JoinEnvelope(room, room.players[PlayerOrder(room)[n]], n + 1, at);
            var after := ApplyToState(ApRuntime.BattleRules(), states, join);
            after.Ok? && IsLobby(room, n + 1, after.value)
  {
    hide SortedKeys, IsLobby, JoinEnvelope;
    var p := PlayerOrder(room)[n];
    assert RoomTheorems.PlayerSound(p, room.players[p], room.teams);
    JoinDecodes(room, room.players[p], n + 1, at);
    assert JoinEnvelope(room, room.players[p], n + 1, at).subject == room.battleId.value by {
      JoinSubject(room, room.players[p], n + 1, at);
    }
    LobbyStep(room, n, at, StateOf(ApRuntime.BattleRules(), states, room.battleId.value));
  }

  lemma JoinSubject(room: Room.RoomState, player: Room.Player, sequence: nat, at: int)
    requires room.battleId.Some?
    ensures var join := JoinEnvelope(room, player, sequence, at);
            && join.subject == room.battleId.value && join.eventId == JoinId(room, player.playerId)
            && join.sourceId == SOURCE && join.sequence == sequence
            && (room.battleId.value != "" ==> WellFormed(join))
  {
    assert JoinId(room, player.playerId)[|room.roomId|] == '-';
  }

  lemma JoinIdOneMore(room: Room.RoomState, n: nat, id: string)
    requires n < |PlayerOrder(room)|
    ensures IsJoinId(room, n, id) || id == JoinId(room, PlayerOrder(room)[n]) ==> IsJoinId(room, n + 1, id)
  {
    hide SortedKeys;
    OneMorePlayer(room, n);
    if id == JoinId(room, PlayerOrder(room)[n]) {
      assert PlayerOrder(room)[n] in First(room, n + 1);
    } else if IsJoinId(room, n, id) {
      var q :| q in First(room, n) && id == JoinId(room, q);
      assert q in First(room, n + 1);
    }
  }

  lemma Advance(w: BattleWorld, room: Room.RoomState, at: int, n: nat, v: BattleWorld, v': BattleWorld,
                after: Battle.BattleState)
    requires room.battleId.Some? && n < |PlayerOrder(room)| && Progress(w, room, at, n, v)
    requires PlayerOrder(room)[n] in room.players && IsLobby(room, n + 1, after)
    requires var p := PlayerOrder(room)[n];
             var join := JoinEnvelope(room, room.players[p], n + 1, at);
             && join.eventId == JoinId(room, p)
             && v'.live.states == v.live.states[room.battleId.value := after]
             && v'.live.accepted == v.live.accepted[join.eventId := join]
             && v'.live.latest == v.live.latest[SOURCE := n + 1]
             && Envelopes(v'.log) == Envelopes(v.log) + [join]
    ensures Progress(w, room, at, n + 1, v')
  {
    hide SortedKeys, IsLobby, JoinEnvelope, First, JoinId, Envelopes;
    var join := JoinEnvelope(room, room.players[PlayerOrder(room)[n]], n + 1, at);
    forall e | e in v'.live.accepted
      ensures e in w.live.accepted || IsJoinId(room, n + 1, e)
    {
      JoinIdOneMore(room, n, e);
    }
    assert Envelopes(w.log) + (Joins(room, at, n) + [join]) == Envelopes(w.log) + Joins(room, at, n) + [join];
  }

  lemma OneJoin(w: BattleWorld, room: Room.RoomState, at: int, n: nat, v: BattleWorld, io: Io)
    requires Started(room) && n < |PlayerOrder(room)| && Progress(w, room, at, n, v) && io.diskOk
    requires SourceUnused(w.live) && FreshEvents(w.live, room) && AllModules(room)
    ensures var join := JoinEnvelope(room, room.players[PlayerOrder(room)[n]], n + 1, at);
            var (v', reply) := SubmitIo(ApRuntime.BattleRules(), v, join, io);
            Passed(reply) && Progress(w, room, at, n + 1, v')
  {
    hide SortedKeys, IsLobby, JoinEnvelope, SubmitIo, ApRuntime.BattleRules, ApplyToState, First, JoinId, Progress;
    var p := PlayerOrder(room)[n];
    var join := JoinEnvelope(room, room.players[p], n + 1, at);
    OneMorePlayer(room, n);
    assert RoomTheorems.PlayerSound(p, room.players[p], room.teams);
    JoinSubject(room, room.players[p], n + 1, at);
    NextIsNew(w, room, at, n, v, JoinId(room, p));
    ProgressLobby(w, room, at, n, v);
    JoinApplies(room, at, n, v.live.states);
    var after := ApplyToState(ApRuntime.BattleRules(), v.live.states, join).value;
    var v' := Accepts(ApRuntime.BattleRules(), v, join, io, after);
    Advance(w, room, at, n, v, v', after);
  }

  /** All n joins go through. */
  lemma {:induction false} AllJoins(w: BattleWorld, room: Room.RoomState, at: int, n: nat, ios: seq<Io>)
    requires Started(room) && n <= |PlayerOrder(room)| && |ios| == n && DisksOk(ios)
    requires room.battleId.value !in w.live.states
    requires SourceUnused(w.live) && FreshEvents(w.live, room) && AllModules(room)
    ensures var (v, error) := SubmitAll(ApRuntime.BattleRules(), w, Joins(room, at, n), ios);
            error == None && Progress(w, room, at, n, v)
  {
    hide SubmitIo, SubmitAll, Progress, JoinEnvelope, SortedKeys, FreshEvents, Started, AllModules,
         ApRuntime.BattleRules, SourceUnused;
    StartedHasBattle(room);
    if n == 0 {
      NoProgress(w, room, at);
      NothingSubmitted(ApRuntime.BattleRules(), w, room, at, ios);
      assert ios[..0] == ios;
    } else {
      assert forall io <- ios[..n - 1] :: io in ios;
      AllJoins(w, room, at, n - 1, ios[..n - 1]);
      var v := SubmitAll(ApRuntime.BattleRules(), w, Joins(room, at, n - 1), ios[..n - 1]).0;
      OneJoin(w, room, at, n - 1, v, ios[n - 1]);
      AllOneMore(ApRuntime.BattleRules(), w, Joins(room, at, n - 1), ios[..n - 1],
                 JoinEnvelope(room, room.players[PlayerOrder(room)[n - 1]], n, at), ios[n - 1]);
      assert ios[..n - 1] + [ios[n - 1]] == ios;
    }
  }

  /** What the plan has made of w. */
  ghost predicate Completed(w: BattleWorld, room: Room.RoomState, at: int, duration: int, v: BattleWorld)
    requires room.battleId.Some?
  {
    var id := room.battleId.value;
    && id in v.live.states && IsBattleOf(room, at, v.live.states[id])
    && v.live.states == w.live.states[id := v.live.states[id]]
    && Envelopes(v.log) == Envelopes(w.log) + Plan(room, at, duration)
    && SOURCE in v.live.latest && v.live.latest[SOURCE] == |room.players| + 1
  }

  lemma Finish(w: BattleWorld, room: Room.RoomState, at: int, duration: int, v: BattleWorld, v': BattleWorld,
               after: Battle.BattleState)
    requires room.battleId.Some? && Progress(w, room, at, |PlayerOrder(room)|, v) && IsBattleOf(room, at, after)
    requires var start := StartEnvelope(room, |PlayerOrder(room)| + 1, at, duration);
             && v'.live.states == v.live.states[room.battleId.value := after]
             && v'.live.latest == v.live.latest[SOURCE := |PlayerOrder(room)| + 1]
             && Envelopes(v'.log) == Envelopes(v.log) + [start]
    ensures Completed(w, room, at, duration, v')
  {
    hide SortedKeys, IsLobby, StartEnvelope, JoinEnvelope, Envelopes, IsBattleOf, ApRuntime.BattleRules, StateOf;
    AllPlayers(room);
    var n := |PlayerOrder(room)|;
    var start := StartEnvelope(room, n + 1, at, duration);
    assert Envelopes(w.log) + (Joins(room, at, n) + [start]) == Envelopes(w.log) + Joins(room, at, n) + [start];
  }

  lemma StartSubject(room: Room.RoomState, sequence: nat, at: int, duration: int)
    requires room.battleId.Some?
    ensures var start := StartEnvelope(room, sequence, at, duration);
            && start.subject == room.battleId.value && start.eventId == StartId(room)
            && start.sourceId == SOURCE && start.sequence == sequence
            && (room.battleId.value != "" ==> WellFormed(start))
  {
    assert StartId(room)[|room.roomId|] == '-';
  }

  lemma StartApplies(room: Room.RoomState, at: int, duration: int, states: map<string, Battle.BattleState>)
    requires Started(room) && duration > 0
    requires IsLobby(room, |PlayerOrder(room)|, StateOf(ApRuntime.BattleRules(), states, room.battleId.value))
    ensures var start := StartEnvelope(room, |PlayerOrder(room)| + 1, at, duration);
            var after := ApplyToState(ApRuntime.BattleRules(), states, start);
            after.Ok? && IsBattleOf(room, at, after.value)
  {
    hide SortedKeys, IsLobby, StartEnvelope, IsBattleOf;
    StartDecodes(room, |PlayerOrder(room)| + 1, at, duration);
    StartSubject(room, |PlayerOrder(room)| + 1, at, duration);
    StartStep(room, at, duration, StateOf(ApRuntime.BattleRules(), states, room.battleId.value));
  }

  lemma FinalStart(w: BattleWorld, room: Room.RoomState, at: int, duration: int, v: BattleWorld, io: Io)
    requires Started(room) && Progress(w, room, at, |PlayerOrder(room)|, v) && io.diskOk && duration > 0
    requires SourceUnused(w.live) && FreshEvents(w.live, room)
    ensures var start := StartEnvelope(room, |PlayerOrder(room)| + 1, at, duration);
            var (v', reply) := SubmitIo(ApRuntime.BattleRules(), v, start, io);
            Passed(reply) && Completed(w, room, at, duration, v')
  {
    hide SortedKeys, IsLobby, IsBattleOf, SubmitIo, StartEnvelope, ApRuntime.BattleRules, ApplyToState, Progress,
         Completed;
    var n := |PlayerOrder(room)|;
    var start := StartEnvelope(room, n + 1, at, duration);
    StartSubject(room, n + 1, at, duration);
    NextIsNew(w, room, at, n, v, StartId(room));
    ProgressLobby(w, room, at, n, v);
    StartApplies(room, at, duration, v.live.states);
    var after := ApplyToState(ApRuntime.BattleRules(), v.live.states, start).value;
    var v' := Accepts(ApRuntime.BattleRules(), v, start, io, after);
    Finish(w, room, at, duration, v, v', after);
  }

  lemma StartedHasBattle(room: Room.RoomState)
    requires Started(room)
    ensures room.battleId.Some?
  {
  }

  lemma PlanSucceeds(w: BattleWorld, room: Room.RoomState, at: int, duration: int, ios: seq<Io>)
    requires Started(room) && |ios| == |room.players| + 1 && DisksOk(ios) && duration > 0
    requires room.battleId.value !in w.live.states
    requires SourceUnused(w.live) && FreshEvents(w.live, room) && AllModules(room)
    ensures Start(w, room, at, duration, ios).1 == None
    ensures Completed(w, room, at, duration, Start(w, room, at, duration, ios).0)
  {
    hide SubmitIo, SubmitAll, Progress, Completed, SortedKeys, StartEnvelope, Joins, FreshEvents, Started, AllModules,
         ApRuntime.BattleRules, SourceUnused;
    assert room.battleId.Some? by {
      StartedHasBattle(room);
    }
    assert forall io <- ios[..|room.players|] :: io in ios;
    AllPlayers(room);
    var n := |PlayerOrder(room)|;
    AllJoins(w, room, at, n, ios[..n]);
    var v := SubmitAll(ApRuntime.BattleRules(), w, Joins(room, at, n), ios[..n]).0;
    FinalStart(w, room, at, duration, v, ios[n]);
    AllOneMore(ApRuntime.BattleRules(), w, Joins(room, at, n), ios[..n],
               StartEnvelope(room, n + 1, at, duration), ios[n]);
    assert ios[..n] + [ios[n]] == ios;
  }

  // ---- the shape of the plan ----------------------------------------------------------------

  lemma {:induction false} JoinAt(room: Room.RoomState, at: int, n: nat, i: nat)
    requires room.battleId.Some? && i < n <= |PlayerOrder(room)|
    ensures Joins(room, at, n)[i] == JoinEnvelope(room, room.players[PlayerOrder(room)[i]], i + 1, at)
  {
    hide JoinEnvelope, SortedKeys;
    if i < n - 1 {
      JoinAt(room, at, n - 1, i);
    }
  }

  ghost predicate PlannedEvent(room: Room.RoomState, i: nat, e: Envelope) {
    && e.sequence == i + 1 && e.sourceId == SOURCE && Some(e.subject) == room.battleId && WellFormed(e)
    && i <= |PlayerOrder(room)|
    && e.eventId == (if i < |PlayerOrder(room)| then JoinId(room, PlayerOrder(room)[i]) else StartId(room))
  }

  lemma PlannedAt(room: Room.RoomState, at: int, duration: int, i: nat)
    requires Started(room) && i <= |PlayerOrder(room)|
    ensures PlannedEvent(room, i, Plan(room, at, duration)[i])
  {
    hide SortedKeys, JoinEnvelope, StartEnvelope, WellFormed;
    var n := |PlayerOrder(room)|;
    if i < n {
      var p := PlayerOrder(room)[i];
      OneMorePlayer(room, i);
      assert RoomTheorems.PlayerSound(p, room.players[p], room.teams);
      JoinAt(room, at, n, i);
      JoinSubject(room, room.players[p], i + 1, at);
    } else {
      StartSubject(room, n + 1, at, duration);
    }
  }

  /** The n+1 events of the plan are well formed, for the room's battle, with sequences 1 to n+1 and distinct ids. */
  lemma PlanShape(room: Room.RoomState, at: int, duration: int)
    requires Started(room)
    ensures var plan := Plan(room, at, duration);
            && |plan| == |room.players| + 1
            && (forall i | 0 <= i < |plan| :: PlannedEvent(room, i, plan[i]))
            && (forall i, j | 0 <= i < j < |plan| :: plan[i].eventId != plan[j].eventId)
  {
    hide SortedKeys, Plan, JoinId, StartId, WellFormed;
    AllPlayers(room);
    var plan := Plan(room, at, duration);
    forall i | 0 <= i < |plan|
      ensures PlannedEvent(room, i, plan[i])
    {
      PlannedAt(room, at, duration, i);
    }
    var keys := PlayerOrder(room);
    forall i, j | 0 <= i < j < |plan|
      ensures plan[i].eventId != plan[j].eventId
    {
      assert PlannedEvent(room, i, plan[i]) && PlannedEvent(room, j, plan[j]);
      JoinIdsDiffer(room, keys[i], if j < |keys| then keys[j] else keys[i]);
    }
  }

  /** The events of the plan word by word: one join for each player in the order of their ids, then the start. */
  lemma PlanSpelled(room: Room.RoomState, at: int, duration: int, i: nat)
    requires room.battleId.Some? && i <= |PlayerOrder(room)|
    ensures var e := Plan(room, at, duration)[i];
            && e.schemaVersion == 0 && e.subject == room.battleId.value && e.sourceId == "ap-room-start"
            && e.sequence == i + 1 && e.occurredAtMs == at
            && (if i < |PlayerOrder(room)| then
                  var p := room.players[PlayerOrder(room)[i]];
                  && e.eventType == "player_joined" && e.eventId == room.roomId + "-battle-join-" + p.playerId
                  && Field(e.payload, "player_id") == Some(Str(p.playerId))
                  && Field(e.payload, "display_name") == Some(Str(p.displayName))
                  && Field(e.payload, "team_id") == Some(Str(p.teamId))
                  && Field(e.payload, "module_id") == Some(Str(p.moduleId))
                else
                  && e.eventType == "battle_started" && e.eventId == room.roomId + "-battle-started"
                  && Field(e.payload, "mode") == Some(Str(room.mode))
                  && Field(e.payload, "duration_ms") == Some(Int(duration)))
  {
    hide SortedKeys;
    if i < |PlayerOrder(room)| {
      JoinAt(room, at, |PlayerOrder(room)|, i);
    }
  }

  // ---- main results -------------------------------------------------------------------------

  /**
   * Once an event of the bootstrap source has been accepted, starting a room is refused and changes nothing, unless the
   * first event of its plan is among the accepted ones.
   */
  lemma SourceTaken(w: BattleWorld, room: Room.RoomState, at: int, duration: int, ios: seq<Io>)
    requires Started(room) && |ios| == |room.players| + 1
    requires !AlreadyAccepted(w.live, Plan(room, at, duration)[0]) && !SourceUnused(w.live)
    ensures Start(w, room, at, duration, ios) == (w, Some(Conflict))
  {
    hide SortedKeys, Plan, SubmitIo, ApRuntime.BattleRules, WellFormed, JoinId;
    AllPlayers(room);
    var plan := Plan(room, at, duration);
    PlannedAt(room, at, duration, 0);
    OneMorePlayer(room, 0);
    RefusedAsStale(ApRuntime.BattleRules(), w, plan[0], ios[0]);
    assert plan[..1] == [] + [plan[0]] && ios[..1] == [] + [ios[0]];
    AllOneMore(ApRuntime.BattleRules(), w, [], [], plan[0], ios[0]);
    ErrorPersists(ApRuntime.BattleRules(), w, plan, ios, 1);
  }

  lemma FirstIsNew<S>(live: EventSourcing.Runtime<S>, room: Room.RoomState, at: int, duration: int)
    requires Started(room) && FreshEvents(live, room)
    ensures !AlreadyAccepted(live, Plan(room, at, duration)[0])
  {
    hide SortedKeys, Plan, JoinId, WellFormed;
    AllPlayers(room);
    OneMorePlayer(room, 0);
    PlannedAt(room, at, duration, 0);
  }

  lemma RefusedAsStale<S, E>(rules: Rules<S, E>, w: World<S>, e: Envelope, io: Io)
    requires !AlreadyAccepted(w.live, e)
    requires e.sourceId in w.live.latest && e.sequence <= w.live.latest[e.sourceId]
    ensures var (v, reply) := SubmitIo(rules, w, e, io);
            v == w && !Passed(reply) && reply.error == Some(Conflict)
  {
  }

  lemma PlannedJoin(room: Room.RoomState, at: int, duration: int, i: nat)
    requires room.battleId.Some? && i < |PlayerOrder(room)|
    ensures i < |Plan(room, at, duration)|
    ensures Plan(room, at, duration)[i] == JoinEnvelope(room, room.players[PlayerOrder(room)[i]], i + 1, at)
  {
    hide JoinEnvelope, StartEnvelope, SortedKeys;
    JoinAt(room, at, |PlayerOrder(room)|, i);
  }

  lemma JoinIsFresh<S>(live: EventSourcing.Runtime<S>, room: Room.RoomState, i: nat, at: int)
    requires Started(room) && FreshEvents(live, room) && i < |PlayerOrder(room)|
    ensures JoinEnvelope(room, room.players[PlayerOrder(room)[i]], i + 1, at).eventId !in live.accepted
  {
    hide SortedKeys, JoinId;
    assert RoomTheorems.PlayerSound(PlayerOrder(room)[i], room.players[PlayerOrder(room)[i]], room.teams);
  }

  lemma ModuleNeeded(w: BattleWorld, room: Room.RoomState, at: int, duration: int, ios: seq<Io>)
    requires Started(room) && |ios| == |room.players| + 1 && FreshEvents(w.live, room)
    requires Start(w, room, at, duration, ios).1.None?
    ensures AllModules(room)
  {
    hide SubmitAll, JoinId, FreshEvents, Plan, JoinEnvelope, SortedKeys, BattleProtocol.ToCoreEvent;
    AllPlayers(room);
    forall p | p in room.players
      ensures room.players[p].moduleId != ""
    {
      var keys := PlayerOrder(room);
      var i :| 0 <= i < |keys| && keys[i] == p;
      assert RoomTheorems.PlayerSound(p, room.players[p], room.teams);
      PlannedJoin(room, at, duration, i);
      var join := Plan(room, at, duration)[i];
      assert join.eventId !in w.live.accepted by {
        JoinIsFresh(w.live, room, i, at);
      }
      PassedDecodes(ApRuntime.BattleRules(), w, Plan(room, at, duration), ios, join);
      JoinDecodes(room, room.players[p], i + 1, at);
    }
  }

  /**
   * For a started room, a new battle id, new event ids and a working disk, the bootstrap goes through exactly when no
   * earlier bootstrap event was accepted and every player has a module; it then makes the room's battle.
   */
  lemma StartsExactlyWhen(w: BattleWorld, room: Room.RoomState, at: int, duration: int, ios: seq<Io>)
    requires Started(room) && |ios| == |room.players| + 1 && DisksOk(ios) && duration > 0
    requires room.battleId.value !in w.live.states && FreshEvents(w.live, room)
    ensures Start(w, room, at, duration, ios).1.None? <==> SourceUnused(w.live) && AllModules(room)
    ensures Start(w, room, at, duration, ios).1.None? ==>
      Completed(w, room, at, duration, Start(w, room, at, duration, ios).0)
  {
    hide Start, Completed, FreshEvents, SourceUnused, AllModules;
    if SourceUnused(w.live) && AllModules(room) {
      PlanSucceeds(w, room, at, duration, ios);
    }
    if Start(w, room, at, duration, ios).1.None? {
      if !SourceUnused(w.live) {
        FirstIsNew(w.live, room, at, duration);
        SourceTaken(w, room, at, duration, ios);
      }
      ModuleNeeded(w, room, at, duration, ios);
    }
  }

  /**
   * A bootstrap that stopped anywhere on a failing disk, even if the process restarted since, ends after a second call
   * with the same arguments as one uninterrupted call would have: same state, same records in the same order.
   */
  lemma StartResumes(w: BattleWorld, room: Room.RoomState, at: int, duration: int,
                     first: seq<Io>, second: seq<Io>, only: seq<Io>)
    requires Started(room) && |first| == |second| == |only| == |room.players| + 1
    requires DisksOk(second) && DisksOk(only) && Durable(ApRuntime.BattleRules(), w)
    ensures var stopped := Start(w, room, at, duration, first).0;
            && Restart(ApRuntime.BattleRules(), stopped) == Ok(stopped)
            && Alike(Start(w, room, at, duration, only).0, Start(stopped, room, at, duration, second).0)
            && Start(stopped, room, at, duration, second).1 == Start(w, room, at, duration, only).1
  {
    hide SubmitAll, Plan, Restart, Alike, ApRuntime.BattleRules;
    var plan := Plan(room, at, duration);
    PlanShape(room, at, duration);
    Resumable(ApRuntime.BattleRules(), w, plan, first, second, only);
    forall e <- plan
      ensures WellFormed(e)
    {
      var i :| 0 <= i < |plan| && plan[i] == e;
      assert PlannedEvent(room, i, plan[i]);
    }
    AllDurable(ApRuntime.BattleRules(), w, plan, first);
    assert ProperIdKey(ApRuntime.BattleRules().codec.idKey) by {
      BattleKeyProper();
    }
    RestartRecovers(ApRuntime.BattleRules(), Start(w, room, at, duration, first).0);
  }

  lemma BattleKeyProper()
    ensures ProperIdKey(ApRuntime.BattleRules().codec.idKey)
  {
  }
}
