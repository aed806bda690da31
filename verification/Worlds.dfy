/** The rules of both domains hold in every world that a run of the runtimes can reach, restarts included. */
module Worlds {
  import opened Basics
  import opened Wire
  import opened EventSourcing
  import opened EventLog
  import opened Recovery
  import Battle
  import BattleProtocol
  import BattleTheorems
  import Decoding
  import HitOrder
  import Notify
  import Room
  import RoomProtocol
  import RoomTheorems
  import ApRuntime
  import RoomRuntime

  lemma KeysProper()
    ensures ProperIdKey(ApRuntime.BattleRules().codec.idKey) && ProperIdKey(RoomRuntime.RoomRules().codec.idKey)
  {
  }

  // ---- battles ------------------------------------------------------------------------------

  ghost predicate BattleReached(s: Battle.BattleState, events: seq<Battle.BattleEvent>) {
    BattleTheorems.AllDecoded(events) && BattleTheorems.RunFrom(Battle.EMPTY_BATTLE, events) == Ok(s)
  }

  /** The events are those of the records, one by one. */
  ghost predicate BattleDecoded(own: seq<Record>, events: seq<Battle.BattleEvent>) {
    |events| == |own| && forall i | 0 <= i < |own| :: BattleProtocol.ToCoreEvent(own[i].envelope) == Ok(events[i])
  }

  lemma BattleOneMore(s: Battle.BattleState, before: seq<Battle.BattleEvent>, e: Battle.BattleEvent,
                      s': Battle.BattleState)
    requires BattleReached(s, before) && BattleProtocol.WithinLimits(e) && Battle.Apply(s, e) == Ok(s')
    ensures BattleReached(s', before + [e])
  {
    hide Battle.Apply, BattleProtocol.WithinLimits;
    assert (before + [e])[..|before|] == before;
  }

  lemma BattleDecodedOneMore(front: seq<Record>, before: seq<Battle.BattleEvent>, r: Record, e: Battle.BattleEvent)
    requires BattleDecoded(front, before) && BattleProtocol.ToCoreEvent(r.envelope) == Ok(e)
    ensures BattleDecoded(front + [r], before + [e])
  {
    hide BattleProtocol.ToCoreEvent;
  }

  lemma NoBattleEvents()
    ensures BattleReached(Battle.EMPTY_BATTLE, []) && BattleDecoded([], [])
  {
  }

  lemma {:induction false} BattleEvents(own: seq<Record>, id: string) returns (events: seq<Battle.BattleEvent>)
    requires Project(ApRuntime.BattleRules(), own).Ok?
    requires forall r <- own :: r.envelope.subject == id
    ensures HitOrder.OfBattle(events, id)
    ensures BattleReached(Project(ApRuntime.BattleRules(), own).value, events) && BattleDecoded(own, events)
  {
    hide BattleProtocol.ToCoreEvent, Battle.Apply, BattleProtocol.WithinLimits, BattleReached, BattleDecoded;
    if own == [] {
      events := [];
      NoBattleEvents();
    } else {
      var front, last := own[..|own| - 1], own[|own| - 1];
      var before := BattleEvents(front, id);
      var e := BattleProtocol.ToCoreEvent(last.envelope).value;
      assert BattleProtocol.Decoded(last.envelope, e);
      events := before + [e];
      assert own == front + [last];
      BattleOneMore(Project(ApRuntime.BattleRules(), front).value, before, e,
                    Project(ApRuntime.BattleRules(), own).value);
      BattleDecodedOneMore(front, before, last, e);
    }
  }

  /** Every battle of every world of every run is a reachable battle, so all results about those apply to it. */
  lemma BattlesReached(ops: seq<Op>, id: string) returns (events: seq<Battle.BattleEvent>)
    requires Run(ApRuntime.BattleRules(), ops).Ok?
    ensures var states := Run(ApRuntime.BattleRules(), ops).value.world.live.states;
            id in states ==> BattleReached(states[id], events) && BattleTheorems.BattleInvariant(states[id])
    ensures HitOrder.OfBattle(events, id)
    ensures BattleDecoded(Own(Run(ApRuntime.BattleRules(), ops).value.world.log, id), events)
  {
    hide Run, BattleTheorems.BattleInvariant, TablesSound;
    KeysProper();
    RunSound(ApRuntime.BattleRules(), ops);
    var w := Run(ApRuntime.BattleRules(), ops).value.world;
    ReplayProjects(ApRuntime.BattleRules(), w.log, id);
    OwnSubset(w.log, id);
    events := BattleEvents(Own(w.log, id), id);
    BattleTheorems.ReachableInvariant(events);
  }

  // ---- rooms --------------------------------------------------------------------------------

  ghost predicate RoomReached(s: Room.RoomState, events: seq<Room.RoomEvent>) {
    RoomTheorems.AllDecoded(events) && RoomTheorems.RunFrom(Room.EMPTY_ROOM, events) == Ok(s)
  }

  /** The room has been created under this id. */
  ghost predicate Names(s: Room.RoomState, id: string) {
    s.roomId == id && id != ""
  }

  lemma AcceptedNames(s: Room.RoomState, e: Room.RoomEvent)
    requires Room.Apply(s, e).Ok?
    ensures Names(Room.Apply(s, e).value, e.roomId)
  {
  }

  /** The events are those of the records, one by one. */
  ghost predicate RoomDecoded(own: seq<Record>, events: seq<Room.RoomEvent>) {
    |events| == |own| && forall i | 0 <= i < |own| :: RoomProtocol.ToRoomEvent(own[i].envelope) == Ok(events[i])
  }

  lemma RoomOneMore(s: Room.RoomState, before: seq<Room.RoomEvent>, e: Room.RoomEvent, s': Room.RoomState)
    requires RoomReached(s, before) && RoomProtocol.WithinLimits(e) && Room.Apply(s, e) == Ok(s')
    ensures RoomReached(s', before + [e])
  {
    hide Room.Apply, RoomProtocol.WithinLimits;
    assert (before + [e])[..|before|] == before;
  }

  lemma RoomDecodedOneMore(front: seq<Record>, before: seq<Room.RoomEvent>, r: Record, e: Room.RoomEvent)
    requires RoomDecoded(front, before) && RoomProtocol.ToRoomEvent(r.envelope) == Ok(e)
    ensures RoomDecoded(front + [r], before + [e])
  {
    hide RoomProtocol.ToRoomEvent;
  }

  lemma NoRoomEvents()
    ensures RoomReached(Room.EMPTY_ROOM, []) && RoomDecoded([], [])
  {
  }

  lemma {:induction false} RoomEvents(own: seq<Record>, id: string) returns (events: seq<Room.RoomEvent>)
    requires Project(RoomRuntime.RoomRules(), own).Ok?
    requires forall r <- own :: r.envelope.subject == id
    ensures own != [] ==> Names(Project(RoomRuntime.RoomRules(), own).value, id)
    ensures RoomReached(Project(RoomRuntime.RoomRules(), own).value, events) && RoomDecoded(own, events)
  {
    hide RoomProtocol.ToRoomEvent, Room.Apply, RoomProtocol.WithinLimits, RoomReached, RoomDecoded, Names;
    if own == [] {
      events := [];
      NoRoomEvents();
    } else {
      var front, last := own[..|own| - 1], own[|own| - 1];
      var before := RoomEvents(front, id);
      var e := RoomProtocol.ToRoomEvent(last.envelope).value;
      assert RoomProtocol.Decoded(last.envelope, e);
      events := before + [e];
      assert own == front + [last];
      RoomOneMore(Project(RoomRuntime.RoomRules(), front).value, before, e,
                  Project(RoomRuntime.RoomRules(), own).value);
      RoomDecodedOneMore(front, before, last, e);
      AcceptedNames(Project(RoomRuntime.RoomRules(), front).value, e);
    }
  }

  /** Every room of a sound world is a reachable room. */
  lemma RoomOfWorld(w: World<Room.RoomState>, id: string) returns (events: seq<Room.RoomEvent>)
    requires Sound(RoomRuntime.RoomRules(), w)
    ensures id in w.live.states ==>
      && Names(w.live.states[id], id) && RoomReached(w.live.states[id], events)
      && RoomTheorems.RoomInvariant(w.live.states[id], RoomTheorems.EverJoined(events))
    ensures RoomDecoded(Own(w.log, id), events)
  {
    hide RoomTheorems.RoomInvariant, TablesSound;
    ReplayProjects(RoomRuntime.RoomRules(), w.log, id);
    OwnSubset(w.log, id);
    events := RoomEvents(Own(w.log, id), id);
    RoomTheorems.ReachableInvariant(events);
  }

  /** Every room of every world of every run is a reachable room, so all results about those apply to it. */
  lemma RoomsReached(ops: seq<Op>, id: string) returns (events: seq<Room.RoomEvent>)
    requires Run(RoomRuntime.RoomRules(), ops).Ok?
    ensures var states := Run(RoomRuntime.RoomRules(), ops).value.world.live.states;
            id in states ==> Names(states[id], id) && RoomReached(states[id], events)
                             && RoomTheorems.RoomInvariant(states[id], RoomTheorems.EverJoined(events))
    ensures RoomDecoded(Own(Run(RoomRuntime.RoomRules(), ops).value.world.log, id), events)
  {
    hide Run, RoomTheorems.RoomInvariant, Sound, RoomReached, Names, RoomDecoded;
    KeysProper();
    RunSound(RoomRuntime.RoomRules(), ops);
    events := RoomOfWorld(Run(RoomRuntime.RoomRules(), ops).value.world, id);
  }

  // ---- recovery of both runtimes ------------------------------------------------------------

  /** In both runtimes, runs of well-formed submissions with failing disks never fail, and restarts are not seen. */
  lemma BothRecover(battleOps: seq<Op>, roomOps: seq<Op>)
    requires WellFormedOps(battleOps) && WellFormedOps(roomOps)
    ensures Run(ApRuntime.BattleRules(), battleOps).Ok?
    ensures Run(ApRuntime.BattleRules(), battleOps) == Run(ApRuntime.BattleRules(), WithoutReboots(battleOps))
    ensures Run(RoomRuntime.RoomRules(), roomOps).Ok?
    ensures Run(RoomRuntime.RoomRules(), roomOps) == Run(RoomRuntime.RoomRules(), WithoutReboots(roomOps))
  {
    KeysProper();
    hide ApRuntime.BattleRules, RoomRuntime.RoomRules;
    RestartsInvisible(ApRuntime.BattleRules(), battleOps);
    RestartsInvisible(RoomRuntime.RoomRules(), roomOps);
  }

  /** What the battle runtime reads from text or from its log. */
  lemma BattleParsed(j: Json, e: Envelope)
    ensures ParseEnvelope(ApRuntime.BattleRules().codec, j) == Ok(e)
       <==> CarriesEnvelope("battle_id", j, e) && exists event :: Decoding.CarriesBattle(e, event)
  {
    hide BattleProtocol.ToCoreEvent, Decoding.CarriesBattle, ParseEnvelope, CarriesEnvelope;
    ParsedExactly(ApRuntime.BattleRules().codec, j, e);
    if BattleProtocol.ToCoreEvent(e).Ok? {
      Decoding.BattleDecoding(e, BattleProtocol.ToCoreEvent(e).value);
    }
    if exists event :: Decoding.CarriesBattle(e, event) {
      var event :| Decoding.CarriesBattle(e, event);
      Decoding.BattleDecoding(e, event);
    }
  }

  /** What the room runtime reads from its log. */
  lemma RoomParsed(j: Json, e: Envelope)
    ensures ParseEnvelope(RoomRuntime.RoomRules().codec, j) == Ok(e)
       <==> CarriesEnvelope("room_id", j, e) && exists event :: Decoding.CarriesRoom(e, event)
  {
    hide RoomProtocol.ToRoomEvent, Decoding.CarriesRoom, ParseEnvelope, CarriesEnvelope;
    ParsedExactly(RoomRuntime.RoomRules().codec, j, e);
    if RoomProtocol.ToRoomEvent(e).Ok? {
      Decoding.RoomDecoding(e, RoomProtocol.ToRoomEvent(e).value);
    }
    if exists event :: Decoding.CarriesRoom(e, event) {
      var event :| Decoding.CarriesRoom(e, event);
      Decoding.RoomDecoding(e, event);
    }
  }

  /** The creation of a room as the server builds it from a request with an empty source id and room code. */
  function UnsourcedCreation(): Envelope {
    var item := Obj(map["team_id" := Str("red"), "display_name" := Str("Red"), "max_players" := Int(1)]);
    var payload := Obj(map["room_code" := Str(""), "name" := Str("Room"), "mode" := Str("mode"),
                           "max_players" := Int(1), "teams" := Arr([item])]);
    Envelope(SCHEMA_VERSION, "e1", "room_created", "r", "", 1, 1, payload)
  }

  lemma CreationCarries()
    ensures Decoding.CarriesTeams(UnsourcedCreation().payload, "teams", [Notify.RED])
  {
  }

  lemma CreationDecodes()
    ensures RoomProtocol.ToRoomEvent(UnsourcedCreation()) == Ok(Notify.CREATED)
  {
    hide RoomProtocol.ToRoomEvent, Decoding.CarriesTeams;
    CreationCarries();
    Decoding.RoomDecoding(UnsourcedCreation(), Notify.CREATED);
  }

  /** Without well-formedness recovery fails: such an event is accepted, and then the log cannot be read back. */
  lemma RestartCanFail() returns (envelope: Envelope)
    ensures envelope.sourceId == ""
    ensures var (w, reply) := Submit(RoomRuntime.RoomRules(), EmptyWorld(), envelope, 0, 0, true);
            reply.status.Accepted? && Restart(RoomRuntime.RoomRules(), w).Err?
  {
    hide RoomProtocol.ToRoomEvent, Room.Apply, Sound, Restart, Appended, ProperIdKey;
    envelope := UnsourcedCreation();
    CreationDecodes();
    var joined := Notify.JoinedRoom();
    var rules := RoomRuntime.RoomRules();
    EmptyWorldSound(rules);
    SubmitSound(rules, EmptyWorld(), envelope, 0, 0, true);
    KeysProper();
    var w := Submit(rules, EmptyWorld(), envelope, 0, 0, true).0;
    assert w.log == [Record(envelope, 0, 0, 1)];
    assert w.log[0] in w.log && !WellFormed(w.log[0].envelope);
    RestartRecovers(rules, w);
  }
}
