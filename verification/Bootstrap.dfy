/** Starting the battle of a started room: one join for each player of the room, then the start. */
module Bootstrap {
  import opened Basics
  import opened Ordering
  import opened Wire
  import Battle
  import Room
  import opened EventSourcing
  import opened Recovery
  import opened Batch
  import ApRuntime

  const SOURCE := "ap-room-start"

  function BattleEnvelope(eventId: string, eventType: string, battleId: string, sequence: nat, at: int,
                          payload: map<string, Json>): Envelope {
    Envelope(SCHEMA_VERSION, eventId, eventType, battleId, SOURCE, sequence, at, Obj(payload))
  }

  function JoinId(room: Room.RoomState, playerId: string): string {
    room.roomId + "-battle-join-" + playerId
  }

  function StartId(room: Room.RoomState): string {
    room.roomId + "-battle-started"
  }

  function JoinEnvelope(room: Room.RoomState, player: Room.Player, sequence: nat, at: int): Envelope
    requires room.battleId.Some?
  {
    BattleEnvelope(JoinId(room, player.playerId), "player_joined", room.battleId.value, sequence, at,
                   map["player_id" := Str(player.playerId),
                       "display_name" := Str(player.displayName),
                       "team_id" := Str(player.teamId),
                       "module_id" := Str(player.moduleId)])
  }

  function StartEnvelope(room: Room.RoomState, sequence: nat, at: int, duration: int): Envelope
    requires room.battleId.Some?
  {
    BattleEnvelope(StartId(room), "battle_started", room.battleId.value, sequence, at,
                   map["mode" := Str(room.mode), "duration_ms" := Int(duration)])
  }

  function PlayerOrder(room: Room.RoomState): seq<string> {
    SortedKeys(room.players.Keys)
  }

  /** The joins of the first n players, with sequences 1 to n. */
  function Joins(room: Room.RoomState, at: int, n: nat): (joins: seq<Envelope>)
    requires room.battleId.Some? && n <= |PlayerOrder(room)|
    ensures |joins| == n
  {
    if n == 0 then []
    else Joins(room, at, n - 1) + [JoinEnvelope(room, room.players[PlayerOrder(room)[n - 1]], n, at)]
  }

  function Plan(room: Room.RoomState, at: int, duration: int): (plan: seq<Envelope>)
    requires room.battleId.Some?
    ensures |plan| == |room.players| + 1
  {
    var n := |PlayerOrder(room)|;
    assert |room.players.Keys| == |room.players|;
    Joins(room, at, n) + [StartEnvelope(room, n + 1, at, duration)]
  }

  type BattleWorld = World<Battle.BattleState>

  /** What the server does with the battle runtime to start the battle of a room. */
  function Start(w: BattleWorld, room: Room.RoomState, at: int, duration: int, ios: seq<Io>)
    : (BattleWorld, Option<ErrorCode>)
    requires |ios| == |room.players| + 1
  {
    if room.battleId.None? then (w, Some(InvalidArgument))
    else SubmitAll(ApRuntime.BattleRules(), w, Plan(room, at, duration), ios)
  }

  lemma NothingSubmitted<S, E>(rules: Rules<S, E>, w: World<S>, room: Room.RoomState, at: int, ios: seq<Io>)
    requires room.battleId.Some?
    ensures SubmitAll(rules, w, Joins(room, at, 0), ios[..0]) == (w, None)
  {
  }

  lemma OneMoreJoin<S, E>(rules: Rules<S, E>, w: World<S>, room: Room.RoomState, at: int, i: nat, ios: seq<Io>)
    requires room.battleId.Some? && i < |PlayerOrder(room)| && i < |ios|
    ensures var (v, error) := SubmitAll(rules, w, Joins(room, at, i), ios[..i]);
            var join := JoinEnvelope(room, room.players[PlayerOrder(room)[i]], i + 1, at);
            var (v', reply) := SubmitIo(rules, v, join, ios[i]);
            SubmitAll(rules, w, Joins(room, at, i + 1), ios[..i + 1])
            == if error.Some? then (v, error) else (v', if Passed(reply) then None else reply.error)
  {
    hide SubmitAll, SubmitIo, Passed, JoinEnvelope, SortedKeys;
    var join := JoinEnvelope(room, room.players[PlayerOrder(room)[i]], i + 1, at);
    assert ios[..i + 1] == ios[..i] + [ios[i]];
    AllOneMore(rules, w, Joins(room, at, i), ios[..i], join, ios[i]);
  }

  lemma {:induction false} JoinsShorter(room: Room.RoomState, at: int, k: nat, n: nat)
    requires room.battleId.Some? && k <= n <= |PlayerOrder(room)|
    ensures Joins(room, at, n)[..k] == Joins(room, at, k)
  {
    hide JoinEnvelope, SortedKeys;
    if k < n {
      JoinsShorter(room, at, k, n - 1);
    }
  }

  lemma JoinsArePrefix(room: Room.RoomState, at: int, duration: int, k: nat)
    requires room.battleId.Some? && k <= |PlayerOrder(room)|
    ensures Plan(room, at, duration)[..k] == Joins(room, at, k)
  {
    JoinsShorter(room, at, k, |PlayerOrder(room)|);
  }

  class ApServer {
    const runtime: ApRuntime.Runtime

    constructor (runtime: ApRuntime.Runtime)
      ensures this.runtime == runtime
    {
      this.runtime := runtime;
    }

    /** Submits the joins and then the start; the first refused or unsaved event ends it. */
    method StartBattleFromRoom(room: Room.RoomState, at: int, duration: int, ios: seq<Io>)
      returns (error: Option<ErrorCode>)
      requires runtime.Valid() && |ios| == |room.players| + 1
      modifies runtime, runtime.store`shards, runtime.sink
      ensures runtime.Valid()
      ensures (runtime.Value(), error) == Start(old(runtime.Value()), room, at, duration, ios)
    {
      hide Submit, Sound, Joins, SubmitAll, JoinEnvelope, StartEnvelope, SortedKeys, ApRuntime.BattleRules;
      if room.battleId.None? {
        return Some(InvalidArgument);
      }
      ghost var rules, w, plan := ApRuntime.BattleRules(), runtime.Value(), Plan(room, at, duration);
      var order := PlayerOrder(room);
      var sequence := 1;
      NothingSubmitted(rules, w, room, at, ios);
      for i := 0 to |order|
        invariant sequence == i + 1
        invariant runtime.Valid()
        invariant SubmitAll(rules, w, Joins(room, at, i), ios[..i]) == (runtime.Value(), None)
      {
        var envelope := JoinEnvelope(room, room.players[order[i]], sequence, at);
        sequence := sequence + 1;
        ghost var v := runtime.Value();
        var reply := runtime.SubmitEvent(envelope, ios[i].receivedAt, ios[i].acceptedAt, ios[i].diskOk);
        OneMoreJoin(rules, w, room, at, i, ios);
        if !Passed(reply) {
          RefusedUnchanged(rules, v, envelope, ios[i]);
          JoinsArePrefix(room, at, duration, i + 1);
          ErrorPersists(rules, w, plan, ios, i + 1);
          return reply.error;
        }
      }
      var start := StartEnvelope(room, sequence, at, duration);
      var io := ios[|order|];
      ghost var v := runtime.Value();
      var reply := runtime.SubmitEvent(start, io.receivedAt, io.acceptedAt, io.diskOk);
      AllOneMore(rules, w, Joins(room, at, |order|), ios[..|order|], start, io);
      assert ios[..|order|] + [io] == ios;
      error := if Passed(reply) then None else reply.error;
    }
  }
}
