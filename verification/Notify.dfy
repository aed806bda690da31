/** Player status and the choice of the players whose status is pushed after a room event. */
module Notify {
  import opened Basics
  import opened Ordering
  import opened Wire
  import opened Room
  import opened RoomProtocol
  import opened RoomTheorems

  /** The part of a player's status that comes from the room. */
  datatype PlayerStatus = PlayerStatus(
    playerId: string,
    displayName: string,
    roomId: string,
    roomPhase: Phase,
    battleId: Option<string>,
    teamId: string,
    ready: bool,
    deviceId: Option<string>,
    deviceOnline: Option<bool>,
    position: Option<Position>)

  /** The first device in key order that is bound to the player. */
  function FirstBound(devices: map<string, Device>, keys: seq<string>, playerId: string): Option<Device>
    requires forall d <- keys :: d in devices
  {
    if keys == [] then None
    else if devices[keys[0]].boundPlayerId == Some(playerId) then Some(devices[keys[0]])
    else FirstBound(devices, keys[1..], playerId)
  }

  function FindBoundDevice(devices: map<string, Device>, playerId: string): Option<Device> {
    FirstBound(devices, SortedKeys(devices.Keys), playerId)
  }

  /** No status for a player who is not in the room. */
  function StatusOf(room: RoomState, playerId: string): Option<PlayerStatus> {
    if playerId !in room.players then None
    else
      var player, device := room.players[playerId], FindBoundDevice(room.devices, playerId);
      Some(PlayerStatus(player.playerId, player.displayName, room.roomId, room.phase, room.battleId, player.teamId,
                        player.ready,
                        if device.Some? then Some(device.value.deviceId) else None,
                        if device.Some? then Some(device.value.online) else None,
                        if playerId in room.positions then Some(room.positions[playerId]) else None))
  }

  /** The player named in the payload. */
  function Named(e: Envelope): set<string> {
    match Field(e.payload, "player_id")
    case Some(Str(p)) => {p}
    case _ => {}
  }

  /** The player to whom the device named in the payload is bound after the event. */
  function Bound(e: Envelope, room: RoomState): set<string> {
    match Field(e.payload, "device_id")
    case Some(Str(d)) =>
      if IsDeviceEvent(e.eventType) && d in room.devices && room.devices[d].boundPlayerId.Some?
      then {room.devices[d].boundPlayerId.value} else {}
    case _ => {}
  }

  /** Everyone, when the phase changes. */
  function Everyone(e: Envelope, room: RoomState): set<string> {
    if IsPhaseEvent(e.eventType) then room.players.Keys else {}
  }

  function PushedIds(e: Envelope, room: RoomState): set<string> {
    Named(e) + Bound(e, room) + Everyone(e, room)
  }

  /** Pushes every key of the map behind the collected ids. */
  method PushKeys(collected: seq<string>, players: map<string, Player>) returns (all: seq<string>)
    ensures (set p <- all) == (set p <- collected) + players.Keys
  {
    hide SortedKeys;
    var keys := SortedKeys(players.Keys);
    all := collected;
    for i := 0 to |keys|
      invariant all == collected + keys[..i]
    {
      assert keys[..i + 1] == keys[..i] + [keys[i]];
      all := all + [keys[i]];
    }
    assert keys[..|keys|] == keys;
    SetOfConcat(collected, keys);
    assert (set p <- keys) == players.Keys;
  }

  lemma SetOfConcat(a: seq<string>, b: seq<string>)
    ensures (set p <- a + b) == (set p <- a) + (set p <- b)
  {
  }

  method PushNamed(e: Envelope) returns (all: seq<string>)
    ensures (set p <- all) == Named(e)
  {
    var named := Field(e.payload, "player_id");
    all := if named.Some? && named.value.Str? then [named.value.s] else [];
  }

  method PushBound(collected: seq<string>, e: Envelope, room: RoomState) returns (all: seq<string>)
    ensures (set p <- all) == (set p <- collected) + Bound(e, room)
  {
    hide IsDeviceEvent;
    all := collected;
    var device := Field(e.payload, "device_id");
    if IsDeviceEvent(e.eventType) && device.Some? && device.value.Str? {
      var d := device.value.s;
      if d in room.devices && room.devices[d].boundPlayerId.Some? {
        all := collected + [room.devices[d].boundPlayerId.value];
      }
    }
  }

  /** Collects the ids in a vector, then sorts it and removes repetitions. */
  method RoomPlayerIdsForEvent(e: Envelope, room: RoomState) returns (ids: seq<string>)
    ensures StrictlySorted(ids)
    ensures forall p :: p in ids <==> p in PushedIds(e, room)
    ensures forall p :: p in ids <==> ToldOf(e, room, p)
  {
    hide SortedKeys, IsPhaseEvent, Named, Bound;
    var collected := PushNamed(e);
    collected := PushBound(collected, e, room);
    if IsPhaseEvent(e.eventType) {
      collected := PushKeys(collected, room.players);
    }
    ids := SortedKeys(set p <- collected);
    forall p
      ensures p in PushedIds(e, room) <==> ToldOf(e, room, p)
    {
      PushedExactly(e, room, p);
    }
  }

  /** The payload names p, or its device is bound to p, or the phase of the room of p changes. */
  ghost predicate ToldOf(e: Envelope, room: RoomState, p: string) {
    || Field(e.payload, "player_id") == Some(Str(p))
    || (e.eventType in {"room_device_registered", "room_device_heartbeat_updated", "room_device_bound",
                        "room_device_unbound"}
        && exists d | d in room.devices :: Field(e.payload, "device_id") == Some(Str(d))
                                           && room.devices[d].boundPlayerId == Some(p))
    || (e.eventType in {"room_started", "room_ended", "room_closed"} && p in room.players)
  }

  lemma PushedExactly(e: Envelope, room: RoomState, p: string)
    ensures p in PushedIds(e, room) <==> ToldOf(e, room, p)
  {
  }

  // ---- who is told --------------------------------------------------------------------------

  lemma {:induction false} FirstBoundFound(devices: map<string, Device>, keys: seq<string>, p: string, d: string)
    requires forall k <- keys :: k in devices
    requires BindingInjective(devices) && d in keys && devices[d].boundPlayerId == Some(p)
    ensures FirstBound(devices, keys, p) == Some(devices[d])
  {
    if devices[keys[0]].boundPlayerId != Some(p) {
      assert d in keys[1..];
      FirstBoundFound(devices, keys[1..], p, d);
    }
  }

  lemma {:induction false} FirstBoundNone(devices: map<string, Device>, keys: seq<string>, p: string)
    requires forall k <- keys :: k in devices
    requires forall d | d in devices :: devices[d].boundPlayerId != Some(p)
    ensures FirstBound(devices, keys, p) == None
  {
    if keys != [] {
      FirstBoundNone(devices, keys[1..], p);
    }
  }

  /** The device found is the one bound to the player, if there is one. */
  lemma BoundDevice(devices: map<string, Device>, p: string)
    requires BindingInjective(devices)
    ensures forall d | d in devices && devices[d].boundPlayerId == Some(p) ::
      FindBoundDevice(devices, p) == Some(devices[d])
    ensures !HasBoundDevice(devices, p) ==> FindBoundDevice(devices, p) == None
  {
    forall d | d in devices && devices[d].boundPlayerId == Some(p)
      ensures FindBoundDevice(devices, p) == Some(devices[d])
    {
      FirstBoundFound(devices, SortedKeys(devices.Keys), p, d);
    }
    if !HasBoundDevice(devices, p) {
      FirstBoundNone(devices, SortedKeys(devices.Keys), p);
    }
  }

  /** A change of one device that is not bound to p before or after leaves p's device as it is. */
  lemma OtherDevice(devices: map<string, Device>, d: string, device: Device, p: string)
    requires BindingInjective(devices) && BindingInjective(devices[d := device])
    requires device.boundPlayerId != Some(p) && (d in devices ==> devices[d].boundPlayerId != Some(p))
    ensures FindBoundDevice(devices[d := device], p) == FindBoundDevice(devices, p)
  {
    hide FindBoundDevice;
    BoundDevice(devices, p);
    BoundDevice(devices[d := device], p);
    if HasBoundDevice(devices, p) {
      var k :| k in devices && devices[k].boundPlayerId == Some(p);
      assert devices[d := device][k] == devices[k];
    } else {
      assert !HasBoundDevice(devices[d := device], p);
    }
  }

  /** The status of p changes, but p is not told. */
  ghost predicate Missed(s: RoomState, envelope: Envelope, s': RoomState, p: string) {
    StatusOf(s, p) != StatusOf(s', p) && p !in PushedIds(envelope, s')
  }

  /** e takes a device from player p of the room. */
  ghost predicate Unbinds(s: RoomState, e: RoomEvent, p: string) {
    && e.DeviceUnbound? && e.deviceId in s.devices
    && s.devices[e.deviceId].boundPlayerId == Some(p) && p in s.players
  }

  /** Any one device of the room changes, but no binding. */
  lemma StatusOther(s: RoomState, s': RoomState, p: string)
    requires s'.roomId == s.roomId && s'.phase == s.phase && s'.battleId == s.battleId
    requires p in s.players <==> p in s'.players
    requires p in s.players ==> s'.players[p] == s.players[p]
    requires p in s.positions <==> p in s'.positions
    requires p in s.positions ==> s'.positions[p] == s.positions[p]
    requires FindBoundDevice(s'.devices, p) == FindBoundDevice(s.devices, p)
    ensures StatusOf(s', p) == StatusOf(s, p)
  {
  }

  /** The new devices after an event that names a device. */
  lemma DeviceStep(s: RoomState, e: RoomEvent, s': RoomState)
    requires NamesDevice(e) && Apply(s, e) == Ok(s')
    ensures e.deviceId in s'.devices && s'.devices == s.devices[e.deviceId := s'.devices[e.deviceId]]
    ensures s' == s.(devices := s'.devices, latestEventId := s'.latestEventId, updatedAtMs := s'.updatedAtMs)
    ensures !e.DeviceBound? && !e.DeviceUnbound? && e.deviceId in s.devices ==>
      s'.devices[e.deviceId].boundPlayerId == s.devices[e.deviceId].boundPlayerId
    ensures e.deviceId !in s.devices ==> s'.devices[e.deviceId].boundPlayerId == None
    ensures e.DeviceBound? ==> e.deviceId in s.devices && s.devices[e.deviceId].boundPlayerId == None
    ensures e.DeviceBound? ==> s'.devices[e.deviceId].boundPlayerId == Some(e.playerId)
    ensures e.DeviceUnbound? ==> e.deviceId in s.devices && s'.devices[e.deviceId].boundPlayerId == None
  {
  }

  /** Device events: whoever's status changes is the player bound after the event, or the one unbound by it. */
  lemma DeviceMissed(s: RoomState, envelope: Envelope, e: RoomEvent, s': RoomState, p: string)
    requires BindingInjective(s.devices) && BindingInjective(s'.devices)
    requires ToRoomEvent(envelope) == Ok(e) && NamesDevice(e) && Apply(s, e) == Ok(s')
    requires p !in PushedIds(envelope, s')
    ensures StatusOf(s', p) == StatusOf(s, p) <==> !Unbinds(s, e, p)
  {
    hide ToRoomEvent, Apply, IsDeviceEvent, IsPhaseEvent, FindBoundDevice;
    assert Decoded(envelope, e);
    DeviceStep(s, e, s');
    var d, device := e.deviceId, s'.devices[e.deviceId];
    assert device.boundPlayerId != Some(p);
    if d in s.devices && s.devices[d].boundPlayerId == Some(p) {
      BoundDevice(s.devices, p);
      BoundDevice(s'.devices, p);
    } else {
      OtherDevice(s.devices, d, device, p);
      StatusOther(s, s', p);
    }
  }

  /** What an event that names a player or the phase leaves alone. */
  ghost predicate OnlyPlayer(s: RoomState, s': RoomState, changed: set<string>) {
    && s'.devices == s.devices && s'.roomId == s.roomId
    && (s'.phase == s.phase && s'.battleId == s.battleId)
    && (forall p | p !in changed ::
          (p in s'.players <==> p in s.players) && (p in s.players ==> s'.players[p] == s.players[p]))
    && (forall p | p !in changed ::
          (p in s'.positions <==> p in s.positions) && (p in s.positions ==> s'.positions[p] == s.positions[p]))
  }

  /** A map with at most one key set or taken out. */
  ghost predicate OneChanged<V>(before: map<string, V>, after: map<string, V>, key: string) {
    after == before - {key} || (key in after && after == before[key := after[key]])
  }

  lemma PlayerShape(s: RoomState, e: RoomEvent, s': RoomState)
    requires Apply(s, e) == Ok(s') && NamesPlayer(e) && !NamesDevice(e)
    ensures s' == s.(players := s'.players, positions := s'.positions, latestEventId := s'.latestEventId,
                     updatedAtMs := s'.updatedAtMs)
    ensures s'.players == s.players || OneChanged(s.players, s'.players, e.playerId)
    ensures s'.positions == s.positions || OneChanged(s.positions, s'.positions, e.playerId)
  {
    hide TeamHasSeat, HasModule, NormalizeHeading;
  }

  lemma PlayerStep(s: RoomState, e: RoomEvent, s': RoomState)
    requires Apply(s, e) == Ok(s') && NamesPlayer(e) && !NamesDevice(e)
    ensures OnlyPlayer(s, s', {e.playerId})
  {
    hide Apply;
    PlayerShape(s, e, s');
  }

  lemma CreatedEmpty(s: RoomState, e: RoomEvent, s': RoomState)
    requires Apply(s, e) == Ok(s') && e.RoomCreated?
    ensures s'.players == map[]
  {
  }

  lemma PhaseStep(s: RoomState, e: RoomEvent, s': RoomState)
    requires Apply(s, e) == Ok(s') && ChangesPhase(e)
    ensures s'.players == s.players
  {
  }

  /** Events that name a player change no other player's status; events that change the phase push everyone. */
  lemma PlayerMissed(s: RoomState, envelope: Envelope, e: RoomEvent, s': RoomState, p: string)
    requires ToRoomEvent(envelope) == Ok(e) && !NamesDevice(e) && Apply(s, e) == Ok(s')
    requires e.RoomCreated? ==> s == EMPTY_ROOM
    requires p !in PushedIds(envelope, s')
    ensures StatusOf(s', p) == StatusOf(s, p)
  {
    hide ToRoomEvent, Apply, FindBoundDevice, IsDeviceEvent, IsPhaseEvent;
    assert Decoded(envelope, e);
    if NamesPlayer(e) {
      PlayerStep(s, e, s');
      StatusOther(s, s', p);
    } else if ChangesPhase(e) {
      PhaseStep(s, e, s');
    } else {
      CreatedEmpty(s, e, s');
    }
  }

  // ---- what a status shows ------------------------------------------------------------------

  /** The status of p is read off the roster, the bindings and the positions of the room. */
  ghost predicate Shows(room: RoomState, p: string, st: PlayerStatus) {
    && p in room.players
    && st.playerId == p
    && st.displayName == room.players[p].displayName
    && st.teamId == room.players[p].teamId
    && st.ready == room.players[p].ready
    && st.roomId == room.roomId
    && st.roomPhase == room.phase
    && st.battleId == room.battleId
    && (forall d | d in room.devices :: st.deviceId == Some(d) <==> room.devices[d].boundPlayerId == Some(p))
    && (if st.deviceId.Some? then
          st.deviceId.value in room.devices && st.deviceOnline == Some(room.devices[st.deviceId.value].online)
        else st.deviceOnline == None)
    && (p in room.positions <==> st.position.Some?)
    && (p in room.positions ==> st.position == Some(room.positions[p]))
  }

  lemma DevicesNamed(s: RoomState, ever: set<string>)
    requires RoomInvariant(s, ever)
    ensures BindingInjective(s.devices) && forall d | d in s.devices :: s.devices[d].deviceId == d
    ensures forall p | p in s.players :: s.players[p].playerId == p
  {
    forall d | d in s.devices
      ensures s.devices[d].deviceId == d
    {
      assert DeviceSound(d, s.devices[d], ever);
    }
    forall p | p in s.players
      ensures s.players[p].playerId == p
    {
      assert PlayerSound(p, s.players[p], s.teams);
    }
  }

  lemma StatusShows(s: RoomState, p: string)
    requires BindingInjective(s.devices) && (forall d | d in s.devices :: s.devices[d].deviceId == d)
    requires p in s.players && s.players[p].playerId == p
    ensures StatusOf(s, p).Some? && Shows(s, p, StatusOf(s, p).value)
  {
    hide FindBoundDevice, SortedKeys;
    BoundDevice(s.devices, p);
    if HasBoundDevice(s.devices, p) {
      var d :| d in s.devices && s.devices[d].boundPlayerId == Some(p);
      assert FindBoundDevice(s.devices, p) == Some(s.devices[d]);
    }
  }

  lemma OneStatus(s: RoomState, p: string, a: PlayerStatus, b: PlayerStatus)
    requires Shows(s, p, a) && Shows(s, p, b)
    ensures a == b
  {
    assert a.deviceId == b.deviceId by {
      if a.deviceId.Some? {
        assert s.devices[a.deviceId.value].boundPlayerId == Some(p);
      }
      if b.deviceId.Some? {
        assert s.devices[b.deviceId.value].boundPlayerId == Some(p);
      }
    }
  }

  /** In a reachable room a status is given exactly for the players of the roster, and it is what the room shows. */
  lemma StatusExactly(s: RoomState, ever: set<string>, p: string, st: PlayerStatus)
    requires RoomInvariant(s, ever)
    ensures StatusOf(s, p) == Some(st) <==> Shows(s, p, st)
    ensures StatusOf(s, p) == None <==> p !in s.players
  {
    DevicesNamed(s, ever);
    if p in s.players {
      hide StatusOf, Shows;
      StatusShows(s, p);
      if Shows(s, p, st) {
        OneStatus(s, p, st, StatusOf(s, p).value);
      }
    }
  }

  // ---- main results -------------------------------------------------------------------------

  /**
   * In a reachable room, an accepted event fails to tell a player of a change of status exactly when it unbinds that
   * player's device and does not name the player in its payload.
   */
  lemma MissedExactly(s: RoomState, ever: set<string>, envelope: Envelope, e: RoomEvent, s': RoomState, p: string)
    requires RoomInvariant(s, ever) && ToRoomEvent(envelope) == Ok(e) && Apply(s, e) == Ok(s')
    ensures Missed(s, envelope, s', p) <==> Unbinds(s, e, p) && p !in Named(envelope)
  {
    hide ToRoomEvent, Apply, StatusOf, IsDeviceEvent, IsPhaseEvent, RoomInvariant;
    assert BindingInjective(s'.devices) by {
      assert Decoded(envelope, e);
      InvariantKept(s, e, ever);
      InvariantParts(s', ever + JoinedBy(e));
    }
    InvariantParts(s, ever);
    if p !in PushedIds(envelope, s') {
      if NamesDevice(e) {
        DeviceMissed(s, envelope, e, s', p);
      } else {
        if e.RoomCreated? {
          CreatedOnce(s, e);
        }
        PlayerMissed(s, envelope, e, s', p);
      }
    } else if Unbinds(s, e, p) {
      UnboundNotPushed(s, envelope, e, s', p);
    }
  }

  lemma InvariantParts(s: RoomState, ever: set<string>)
    requires RoomInvariant(s, ever)
    ensures BindingInjective(s.devices) && CreatedSound(s)
  {
  }

  lemma CreatedOnce(s: RoomState, e: RoomEvent)
    requires CreatedSound(s) && e.RoomCreated? && Apply(s, e).Ok?
    ensures s == EMPTY_ROOM
  {
  }

  /** After an unbind the device names no one, so only the payload can name the player. */
  lemma UnboundNotPushed(s: RoomState, envelope: Envelope, e: RoomEvent, s': RoomState, p: string)
    requires ToRoomEvent(envelope) == Ok(e) && Apply(s, e) == Ok(s') && Unbinds(s, e, p)
    ensures p in PushedIds(envelope, s') ==> p in Named(envelope)
  {
    hide ToRoomEvent, Apply, IsDeviceEvent, IsPhaseEvent;
    assert Decoded(envelope, e);
    DeviceStep(s, e, s');
  }

  const RED := TeamSpec("red", "Red", 1)
  const CREATED := RoomCreated("r", "e1", 1, "", "Room", "mode", "", 1, [RED])
  const JOINED := PlayerJoined("r", "e2", 2, "p", "Player", "red", "")
  const REGISTERED := DeviceRegistered("r", "e3", 3, "d", "tag", "", None, None)
  const BOUND := DeviceBound("r", "e4", 4, "d", "p")

  lemma JoinedRoom() returns (s: RoomState)
    ensures Apply(EMPTY_ROOM, CREATED).Ok? && Apply(Apply(EMPTY_ROOM, CREATED).value, JOINED) == Ok(s)
    ensures s.roomId == "r" && s.phase.Open? && "p" in s.players && s.devices == map[]
  {
    assert GatherTeams([RED]) == Ok((map["red" := RED], 1)) by {
      assert [RED][..0] == [];
    }
    var created := Apply(EMPTY_ROOM, CREATED).value;
    assert Members(created.players, "red") == {};
    s := Apply(created, JOINED).value;
  }

  /** A run that leads to a room of one player "p" with device "d". */
  lemma BoundRoom() returns (events: seq<RoomEvent>, s: RoomState)
    ensures AllDecoded(events) && RunFrom(EMPTY_ROOM, events) == Ok(s)
    ensures s.roomId == "r" && s.phase.Open? && "p" in s.players
    ensures "d" in s.devices && s.devices["d"].boundPlayerId == Some("p")
  {
    hide RunFrom, GatherTeams;
    var joined := JoinedRoom();
    var registered := Apply(joined, REGISTERED).value;
    assert !HasBoundDevice(registered.devices, "p");
    s := Apply(registered, BOUND).value;
    events := [CREATED, JOINED, REGISTERED, BOUND];
    RunOf4(EMPTY_ROOM, CREATED, JOINED, REGISTERED, BOUND);
  }

  /** In that room, the unbind as the server builds it is accepted, and "p" is not told. */
  lemma SilentUnbind() returns (events: seq<RoomEvent>, envelope: Envelope)
    ensures AllDecoded(events) && RunFrom(EMPTY_ROOM, events).Ok?
    ensures WellFormed(envelope) && ToRoomEvent(envelope).Ok?
    ensures var s := RunFrom(EMPTY_ROOM, events).value;
            var after := Apply(s, ToRoomEvent(envelope).value);
            after.Ok? && Missed(s, envelope, after.value, "p")
  {
    hide RunFrom, RoomInvariant, StatusOf, Missed, Decoded, EverJoined;
    var s;
    events, s := BoundRoom();
    var payload := Obj(map["device_id" := Str("d")]);
    envelope := Envelope(SCHEMA_VERSION, "e5", "room_device_unbound", "r", "ap-http", 5, 5, payload);
    var unbound := DeviceUnbound("r", "e5", 5, "d");
    assert Field(payload, "device_id") == Some(Str("d"));
    assert ToRoomEvent(envelope) == Ok(unbound);
    ReachableInvariant(events);
    MissedExactly(s, EverJoined(events), envelope, unbound, Apply(s, unbound).value, "p");
  }

  lemma RunOf4(s: RoomState, a: RoomEvent, b: RoomEvent, c: RoomEvent, d: RoomEvent)
    requires Apply(s, a).Ok? && Apply(Apply(s, a).value, b).Ok?
    requires Apply(Apply(Apply(s, a).value, b).value, c).Ok?
    ensures RunFrom(s, [a, b, c, d]) == Apply(Apply(Apply(Apply(s, a).value, b).value, c).value, d)
  {
    hide Apply;
    assert [a][..0] == [] && [a, b][..1] == [a] && [a, b, c][..2] == [a, b] && [a, b, c, d][..3] == [a, b, c];
    assert RunFrom(s, []) == Ok(s);
    assert RunFrom(s, [a]) == Apply(s, a);
    assert RunFrom(s, [a, b]) == Apply(Apply(s, a).value, b);
    assert RunFrom(s, [a, b, c]) == Apply(Apply(Apply(s, a).value, b).value, c);
  }

  // ---- a client that follows the pushed statuses --------------------------------------------

  /** A room, and the statuses that a client holds who applies only what is pushed. */
  datatype Followed = Followed(room: RoomState, mirror: string -> Option<PlayerStatus>)

  ghost function Told(mirror: string -> Option<PlayerStatus>, ids: set<string>, room: RoomState)
    : string -> Option<PlayerStatus>
  {
    (p: string) => if p in ids then StatusOf(room, p) else mirror(p)
  }

  /** The room and the client after a run of accepted envelopes. */
  ghost function Follow(envelopes: seq<Envelope>): Result<Followed> {
    if envelopes == [] then Ok(Followed(EMPTY_ROOM, (p: string) => None))
    else
      var last := envelopes[|envelopes| - 1];
      var before :- Follow(envelopes[..|envelopes| - 1]);
      var e :- ToRoomEvent(last);
      var room :- Apply(before.room, e);
      Ok(Followed(room, Told(before.mirror, PushedIds(last, room), room)))
  }

  /** The last envelope of the run unbinds no player in silence. */
  ghost predicate Announced(room: RoomState, envelope: Envelope) {
    ToRoomEvent(envelope).Ok? ==>
      forall p :: Unbinds(room, ToRoomEvent(envelope).value, p) ==> p in Named(envelope)
  }

  ghost predicate AllAnnounced(envelopes: seq<Envelope>) {
    envelopes != [] ==>
      && AllAnnounced(envelopes[..|envelopes| - 1])
      && (Follow(envelopes[..|envelopes| - 1]).Ok? ==>
            Announced(Follow(envelopes[..|envelopes| - 1]).value.room, envelopes[|envelopes| - 1]))
  }

  /** Unbind-free runs are announced. */
  lemma {:induction false} UnbindFreeAnnounced(envelopes: seq<Envelope>)
    requires forall e <- envelopes :: e.eventType != "room_device_unbound"
    ensures AllAnnounced(envelopes)
  {
    if envelopes != [] {
      hide Follow, Decoded, ToRoomEvent;
      UnbindFreeAnnounced(envelopes[..|envelopes| - 1]);
      UnbindType(envelopes[|envelopes| - 1]);
    }
  }

  lemma UnbindType(envelope: Envelope)
    ensures ToRoomEvent(envelope).Ok? && ToRoomEvent(envelope).value.DeviceUnbound? ==>
      envelope.eventType == "room_device_unbound"
  {
    hide Decoded;
  }

  ghost predicate UpToDate(f: Followed) {
    forall p :: f.mirror(p) == StatusOf(f.room, p)
  }

  lemma FollowStep(f: Followed, ever: set<string>, envelope: Envelope, e: RoomEvent, room: RoomState)
    requires RoomInvariant(f.room, ever) && UpToDate(f) && Announced(f.room, envelope)
    requires ToRoomEvent(envelope) == Ok(e) && Apply(f.room, e) == Ok(room)
    ensures UpToDate(Followed(room, Told(f.mirror, PushedIds(envelope, room), room)))
  {
    hide RoomInvariant, ToRoomEvent, Apply, StatusOf, PushedIds, Unbinds;
    forall p
      ensures Told(f.mirror, PushedIds(envelope, room), room)(p) == StatusOf(room, p)
    {
      MissedExactly(f.room, ever, envelope, e, room, p);
      assert f.mirror(p) == StatusOf(f.room, p);
    }
  }

  /** On runs without silent unbinds, a client that applies only pushed statuses always agrees with the full query. */
  lemma {:induction false} MirrorUpToDate(envelopes: seq<Envelope>) returns (ever: set<string>)
    requires Follow(envelopes).Ok? && AllAnnounced(envelopes)
    ensures RoomInvariant(Follow(envelopes).value.room, ever)
    ensures UpToDate(Follow(envelopes).value)
  {
    if envelopes == [] {
      EmptyInvariant();
      ever := EverJoined([]);
    } else {
      hide RoomInvariant, UpToDate, Announced, Apply, ToRoomEvent;
      var front, last := envelopes[..|envelopes| - 1], envelopes[|envelopes| - 1];
      ever := MirrorUpToDate(front);
      var e := ToRoomEvent(last).value;
      assert Decoded(last, e);
      FollowStep(Follow(front).value, ever, last, e, Follow(envelopes).value.room);
      InvariantKept(Follow(front).value.room, e, ever);
      ever := ever + JoinedBy(e);
    }
  }
}
