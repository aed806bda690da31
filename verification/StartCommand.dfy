/** The command that starts a room: the room runtime takes the start, and only then the battle is set up. */
module StartCommand {
  import opened Basics
  import opened Wire
  import opened EventSourcing
  import opened Recovery
  import opened Batch
  import opened Bootstrap
  import opened Room
  import opened RoomProtocol
  import RoomTheorems
  import BootstrapTheorems
  import Decoding
  import ApRuntime
  import RoomRuntime
  import Worlds

  /** Both runtimes of the server. */
  datatype Site = Site(rooms: World<RoomState>, battles: BattleWorld)

  /** What the start command asks for, and what its surroundings do to its submissions. */
  datatype Request = Request(envelope: Envelope, io: Io, at: int, ios: nat -> Io)

  /** The duration in the payload, or ten minutes. */
  function Duration(request: Request): int {
    match Field(request.envelope.payload, "duration_ms")
    case Some(Int(n)) => n
    case _ => 600000
  }

  function BattleIos(request: Request, room: RoomState): (ios: seq<Io>)
    ensures |ios| == |room.players| + 1
  {
    seq(|room.players| + 1, (i: nat) => request.ios(i))
  }

  datatype Outcome = Outcome(status: Status, error: Option<ErrorCode>)

  /** The battle is set up exactly when the room's start is accepted now. */
  function StartRoom(site: Site, request: Request): (Site, Outcome) {
    var (rooms, reply) := SubmitIo(RoomRuntime.RoomRules(), site.rooms, request.envelope, request.io);
    if reply.status.Accepted? then
      var (battles, error) :=
        Start(site.battles, reply.snapshot, request.at, Duration(request), BattleIos(request, reply.snapshot));
      (Site(rooms, battles), Outcome(reply.status, error))
    else (Site(rooms, site.battles), Outcome(reply.status, reply.error))
  }

  class CommandHandler {
    const server: ApServer
    const rooms: RoomRuntime.Runtime

    constructor (server: ApServer, rooms: RoomRuntime.Runtime)
      ensures this.server == server && this.rooms == rooms
    {
      this.server, this.rooms := server, rooms;
    }

    ghost function Value(): Site
      reads server.runtime, server.runtime.store, rooms, rooms.store
    {
      Site(rooms.Value(), server.runtime.Value())
    }

    ghost predicate Valid()
      reads server.runtime, server.runtime.store, server.runtime.sink, rooms, rooms.store, rooms.sink
    {
      server.runtime.Valid() && rooms.Valid()
    }

    method HandleStart(request: Request) returns (outcome: Outcome)
      requires Valid()
      modifies rooms, rooms.store`shards, rooms.sink
      modifies server.runtime, server.runtime.store`shards, server.runtime.sink
      ensures Valid()
      ensures (Value(), outcome) == StartRoom(old(Value()), request)
    {
      hide Submit, Start, Sound;
      var io := request.io;
      var reply := rooms.SubmitEvent(request.envelope, io.receivedAt, io.acceptedAt, io.diskOk);
      if !reply.status.Accepted? {
        return Outcome(reply.status, reply.error);
      }
      var ios := BattleIos(request, reply.snapshot);
      var error := server.StartBattleFromRoom(reply.snapshot, request.at, Duration(request), ios);
      outcome := Outcome(reply.status, error);
    }
  }

  // ---- runs of both runtimes ----------------------------------------------------------------

  datatype SiteOp =
    | RoomOp(op: Op)
    | BattleOp(op: Op)
    | StartOp(request: Request)

  function SiteStep(site: Site, op: SiteOp): Result<Site> {
    match op
    case RoomOp(o) =>
      var t :- Step(RoomRuntime.RoomRules(), Trace(site.rooms, []), o);
      Ok(site.(rooms := t.world))
    case BattleOp(o) =>
      var t :- Step(ApRuntime.BattleRules(), Trace(site.battles, []), o);
      Ok(site.(battles := t.world))
    case StartOp(request) => Ok(StartRoom(site, request).0)
  }

  /** A run of the server from empty disks: submissions to and restarts of either runtime, and start commands. */
  function SiteRun(ops: seq<SiteOp>): Result<Site> {
    if ops == [] then Ok(Site(EmptyWorld(), EmptyWorld()))
    else
      var before :- SiteRun(ops[..|ops| - 1]);
      SiteStep(before, ops[|ops| - 1])
  }

  // ---- a room is started once ---------------------------------------------------------------

  /** The room has left the open phase. */
  ghost predicate PastOpen(states: map<string, RoomState>, id: string) {
    id in states && states[id].roomId != "" && !states[id].phase.Open?
  }

  lemma StaysPastOpen(s: RoomState, e: RoomEvent)
    requires s.roomId != "" && !s.phase.Open? && Apply(s, e).Ok?
    ensures Apply(s, e).value.roomId != "" && !Apply(s, e).value.phase.Open?
  {
    RoomTheorems.OneStepLater(s, e);
  }

  lemma SubmitPastOpen(w: World<RoomState>, id: string, e: Envelope, io: Io)
    requires PastOpen(w.live.states, id)
    ensures PastOpen(SubmitIo(RoomRuntime.RoomRules(), w, e, io).0.live.states, id)
  {
    hide Apply, ToRoomEvent;
    match Judge(RoomRuntime.RoomRules(), w.live, e) {
      case Admit(after) =>
        if e.subject == id {
          StaysPastOpen(w.live.states[id], ToRoomEvent(e).value);
        }
      case _ =>
    }
  }

  ghost predicate SoundRooms(site: Site) {
    Sound(RoomRuntime.RoomRules(), site.rooms)
  }

  lemma KeyProper()
    ensures ProperIdKey(RoomRuntime.RoomRules().codec.idKey)
  {
  }

  lemma SiteStepSound(site: Site, op: SiteOp)
    requires SoundRooms(site) && SiteStep(site, op).Ok?
    ensures SoundRooms(SiteStep(site, op).value)
  {
    hide Sound, Restart, Submit, Start, RoomRuntime.RoomRules, ApRuntime.BattleRules;
    match op {
      case RoomOp(o) =>
        if o.Reboot? {
          KeyProper();
          RestartRecovers(RoomRuntime.RoomRules(), site.rooms);
        } else {
          SubmitSound(RoomRuntime.RoomRules(), site.rooms, o.envelope, o.receivedAt, o.acceptedAt, o.diskOk);
        }
      case BattleOp(o) =>
      case StartOp(r) =>
        SubmitSound(RoomRuntime.RoomRules(), site.rooms, r.envelope, r.io.receivedAt, r.io.acceptedAt, r.io.diskOk);
    }
  }

  lemma {:induction false} SiteRunSound(ops: seq<SiteOp>)
    requires SiteRun(ops).Ok?
    ensures SoundRooms(SiteRun(ops).value)
  {
    hide SiteStep, Sound;
    if ops == [] {
      EmptyWorldSound(RoomRuntime.RoomRules());
    } else {
      SiteRunSound(ops[..|ops| - 1]);
      SiteStepSound(SiteRun(ops[..|ops| - 1]).value, ops[|ops| - 1]);
    }
  }

  lemma SiteStepPastOpen(site: Site, op: SiteOp, id: string)
    requires SoundRooms(site) && SiteStep(site, op).Ok? && PastOpen(site.rooms.live.states, id)
    ensures PastOpen(SiteStep(site, op).value.rooms.live.states, id)
  {
    hide Sound, Restart, Submit, Start, PastOpen, RoomRuntime.RoomRules, ApRuntime.BattleRules;
    match op {
      case RoomOp(o) =>
        if o.Reboot? {
          KeyProper();
          RestartRecovers(RoomRuntime.RoomRules(), site.rooms);
        } else {
          SubmitPastOpen(site.rooms, id, o.envelope, Io(o.receivedAt, o.acceptedAt, o.diskOk));
        }
      case BattleOp(o) =>
      case StartOp(r) => SubmitPastOpen(site.rooms, id, r.envelope, r.io);
    }
  }

  lemma {:induction false} RunPastOpen(ops: seq<SiteOp>, more: seq<SiteOp>, id: string)
    requires SiteRun(ops).Ok? && PastOpen(SiteRun(ops).value.rooms.live.states, id)
    requires SiteRun(ops + more).Ok?
    ensures PastOpen(SiteRun(ops + more).value.rooms.live.states, id)
  {
    hide SiteStep, Sound, PastOpen;
    if more == [] {
      assert ops + more == ops;
    } else {
      var n := |more| - 1;
      assert (ops + more)[..|ops| + n] == ops + more[..n];
      RunPastOpen(ops, more[..n], id);
      SiteRunSound(ops + more[..n]);
      SiteStepPastOpen(SiteRun(ops + more[..n]).value, more[n], id);
    }
  }

  /** A start command for the room with this id. */
  ghost predicate StartsRoom(request: Request, id: string) {
    request.envelope.subject == id && request.envelope.eventType == "room_started"
  }

  lemma StartDecodes(e: Envelope)
    requires e.eventType == "room_started" && ToRoomEvent(e).Ok?
    ensures ToRoomEvent(e).value.RoomStarted? && ToRoomEvent(e).value.roomId == e.subject
  {
  }

  lemma StartNeedsOpen(s: RoomState, e: RoomEvent)
    requires e.RoomStarted? && Apply(s, e).Ok?
    ensures s.phase.Open? && s.roomId != ""
    ensures Apply(s, e).value == Latest(s, e).(phase := Active, battleId := Some(e.battleId))
  {
  }

  /** A start that is accepted takes the room out of the open phase. */
  lemma AcceptedStart(site: Site, request: Request, id: string)
    requires StartsRoom(request, id) && StartRoom(site, request).1.status.Accepted?
    ensures PastOpen(StartRoom(site, request).0.rooms.live.states, id)
  {
    hide Apply, ToRoomEvent, Start;
    match Judge(RoomRuntime.RoomRules(), site.rooms.live, request.envelope) {
      case Admit(after) =>
        StartDecodes(request.envelope);
        StartNeedsOpen(StateOf(RoomRuntime.RoomRules(), site.rooms.live.states, id),
                       ToRoomEvent(request.envelope).value);
      case _ =>
    }
  }

  /** The command had no effect: the room runtime knew the event already, or refused it. */
  ghost predicate WithoutEffect(site: Site, request: Request) {
    var (after, outcome) := StartRoom(site, request);
    after == site && (outcome.status.Duplicate? || outcome.status.Rejected?)
  }

  /** In a room that has left the open phase a start command has no effect. */
  lemma RefusedStart(site: Site, request: Request, id: string)
    requires StartsRoom(request, id) && PastOpen(site.rooms.live.states, id)
    ensures WithoutEffect(site, request)
  {
    hide Apply, ToRoomEvent, Start;
    match Judge(RoomRuntime.RoomRules(), site.rooms.live, request.envelope) {
      case Admit(after) =>
        StartDecodes(request.envelope);
        StartNeedsOpen(site.rooms.live.states[id], ToRoomEvent(request.envelope).value);
        assert false;
      case _ =>
    }
  }

  /** In every run a room that has left the open phase stays so, and its start commands have no effect. */
  lemma PastOpenForGood(ops: seq<SiteOp>, more: seq<SiteOp>, again: Request, id: string)
    requires SiteRun(ops).Ok? && PastOpen(SiteRun(ops).value.rooms.live.states, id)
    requires SiteRun(ops + more).Ok? && StartsRoom(again, id)
    ensures WithoutEffect(SiteRun(ops + more).value, again)
  {
    hide WithoutEffect, PastOpen, StartsRoom;
    RunPastOpen(ops, more, id);
    RefusedStart(SiteRun(ops + more).value, again, id);
  }

  /**
   * The battle of a room is set up at most once: after a start command was accepted for a room, whatever follows,
   * restarts among it, every later start command for the room is refused or a duplicate and changes nothing in either
   * runtime. In particular no command takes up a setup that a failing disk has stopped.
   */
  lemma StartedOnce(ops: seq<SiteOp>, first: Request, more: seq<SiteOp>, again: Request, id: string)
    requires SiteRun(ops).Ok? && StartsRoom(first, id) && StartRoom(SiteRun(ops).value, first).1.status.Accepted?
    requires StartsRoom(again, id) && SiteRun(ops + [StartOp(first)] + more).Ok?
    ensures WithoutEffect(SiteRun(ops + [StartOp(first)] + more).value, again)
  {
    hide StartRoom, PastOpen, StartsRoom, WithoutEffect;
    AcceptedStart(SiteRun(ops).value, first, id);
    assert (ops + [StartOp(first)])[..|ops|] == ops;
    PastOpenForGood(ops + [StartOp(first)], more, again, id);
  }

  // ---- an accepted start sets up the battle -------------------------------------------------

  lemma AcceptedRoom(w: World<RoomState>, request: Request, id: string)
    requires StartsRoom(request, id)
    requires SubmitIo(RoomRuntime.RoomRules(), w, request.envelope, request.io).1.status.Accepted?
    ensures var (rooms, reply) := SubmitIo(RoomRuntime.RoomRules(), w, request.envelope, request.io);
            && id in rooms.live.states && rooms.live.states[id] == reply.snapshot
            && reply.snapshot.phase.Active? && reply.snapshot.battleId.Some?
            && Field(request.envelope.payload, "battle_id") == Some(Str(reply.snapshot.battleId.value))
            && Duration(request) > 0
  {
    hide Apply, ToRoomEvent;
    match Judge(RoomRuntime.RoomRules(), w.live, request.envelope) {
      case Admit(after) =>
        var e := ToRoomEvent(request.envelope).value;
        StartDecodes(request.envelope);
        StartCarries(request.envelope, e);
        StartNeedsOpen(StateOf(RoomRuntime.RoomRules(), w.live.states, id), e);
      case _ =>
    }
  }

  lemma StartCarries(envelope: Envelope, e: RoomEvent)
    requires ToRoomEvent(envelope) == Ok(e) && e.RoomStarted?
    ensures Field(envelope.payload, "battle_id") == Some(Str(e.battleId))
    ensures Field(envelope.payload, "duration_ms") == Some(Int(e.durationMs)) && e.durationMs > 0
  {
    hide ToRoomEvent;
    Decoding.RoomDecoding(envelope, e);
  }

  /**
   * Over every run of both runtimes: when a start command is accepted, its room is active with the battle that the
   * command names, and the battle runtime has been given the plan of that room, event by event up to the first that
   * did not pass, whose error is reported. When it is not accepted the battles are as they were.
   */
  lemma AcceptedSetsUp(ops: seq<SiteOp>, request: Request, id: string)
    requires SiteRun(ops).Ok? && StartsRoom(request, id)
    ensures var site := SiteRun(ops).value;
            var (after, outcome) := StartRoom(site, request);
            var (rooms, reply) := SubmitIo(RoomRuntime.RoomRules(), site.rooms, request.envelope, request.io);
            && after.rooms == rooms && outcome.status == reply.status
            && (!outcome.status.Accepted? ==> after.battles == site.battles && outcome.error == reply.error)
            && (outcome.status.Accepted? ==>
                  && id in after.rooms.live.states
                  && var room := after.rooms.live.states[id];
                     && room.phase.Active? && room.battleId.Some?
                     && Field(request.envelope.payload, "battle_id") == Some(Str(room.battleId.value))
                     && (after.battles, outcome.error)
                        == SubmitAll(ApRuntime.BattleRules(), site.battles, Plan(room, request.at, Duration(request)),
                                     BattleIos(request, room)))
  {
    hide SiteRun, SubmitIo, SubmitAll, Plan, Duration, ApRuntime.BattleRules, RoomRuntime.RoomRules;
    var site := SiteRun(ops).value;
    if SubmitIo(RoomRuntime.RoomRules(), site.rooms, request.envelope, request.io).1.status.Accepted? {
      AcceptedRoom(site.rooms, request, id);
    }
  }

  lemma AcceptedIsStarted(ops: seq<SiteOp>, request: Request, id: string)
    requires SiteRun(ops).Ok? && StartsRoom(request, id) && StartRoom(SiteRun(ops).value, request).1.status.Accepted?
    ensures var rooms := StartRoom(SiteRun(ops).value, request).0.rooms;
            id in rooms.live.states && BootstrapTheorems.Started(rooms.live.states[id])
  {
    hide SiteRun, Start, Sound, Submit, BootstrapTheorems.Started, RoomTheorems.RunFrom, RoomTheorems.RoomInvariant;
    var site, io := SiteRun(ops).value, request.io;
    SiteRunSound(ops);
    SubmitSound(RoomRuntime.RoomRules(), site.rooms, request.envelope, io.receivedAt, io.acceptedAt, io.diskOk);
    var rooms := StartRoom(site, request).0.rooms;
    AcceptedRoom(site.rooms, request, id);
    var events := Worlds.RoomOfWorld(rooms, id);
    BootstrapTheorems.ReachableStarted(events);
  }

  /**
   * Over every run of both runtimes: an accepted start with a new battle id, new event ids and working disks ends
   * without error exactly when no earlier setup has used the source and every player has a module; then the battle of
   * the room has been made.
   */
  lemma StartMakesBattle(ops: seq<SiteOp>, request: Request, id: string)
    requires SiteRun(ops).Ok? && StartsRoom(request, id) && StartRoom(SiteRun(ops).value, request).1.status.Accepted?
    requires forall i :: request.ios(i).diskOk
    ensures var site := SiteRun(ops).value;
            var (after, outcome) := StartRoom(site, request);
            && id in after.rooms.live.states
            && var room := after.rooms.live.states[id];
               && room.battleId.Some?
               && (room.battleId.value !in site.battles.live.states
                   && BootstrapTheorems.FreshEvents(site.battles.live, room) ==>
                     && (outcome.error == None <==>
                           BootstrapTheorems.SourceUnused(site.battles.live) && BootstrapTheorems.AllModules(room))
                     && (outcome.error == None ==>
                           BootstrapTheorems.Completed(site.battles, room, request.at, Duration(request),
                                                       after.battles)))
  {
    hide SiteRun, StartRoom, SubmitAll, Plan, Duration, ApRuntime.BattleRules, RoomRuntime.RoomRules, SubmitIo,
      BootstrapTheorems.Started, BootstrapTheorems.Completed, BootstrapTheorems.FreshEvents,
      BootstrapTheorems.SourceUnused, BootstrapTheorems.AllModules;
    var site := SiteRun(ops).value;
    AcceptedSetsUp(ops, request, id);
    AcceptedIsStarted(ops, request, id);
    AcceptedRoom(site.rooms, request, id);
    var room := StartRoom(site, request).0.rooms.live.states[id];
    if room.battleId.value !in site.battles.live.states && BootstrapTheorems.FreshEvents(site.battles.live, room) {
      BootstrapTheorems.StartsExactlyWhen(site.battles, room, request.at, Duration(request), BattleIos(request, room));
    }
  }
}
