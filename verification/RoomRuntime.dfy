/** The room runtime: the same protocol as the battle runtime, on rooms. */
module RoomRuntime {
  import opened Basics
  import opened Wire
  import opened Room
  import opened RoomProtocol
  import opened EventSourcing
  import opened Recovery
  import opened Store

  function RoomRules(): Rules<RoomState, RoomEvent> {
    Rules(Codec("room_id", ToRoomEvent), EMPTY_ROOM, Room.Apply)
  }

  class Runtime {
    const store: JsonlEventStore<RoomEvent>
    const sink: UpdateSink<RoomState>
    var rooms: map<string, RoomState>
    var acceptedEvents: map<string, Envelope>
    var latestSequenceBySource: map<string, nat>
    var acceptanceSequence: nat

    // all records ever accepted, and all updates ever published, also by earlier processes on the same store
    ghost var log: seq<Record>
    ghost var history: seq<Publication<RoomState>>

    ghost function Live(): EventSourcing.Runtime<RoomState>
      reads this
    {
      EventSourcing.Runtime(rooms, acceptedEvents, latestSequenceBySource, acceptanceSequence)
    }

    ghost function Value(): World<RoomState>
      reads this, store
    {
      World(Live(), store.shards, log, history)
    }

    /** The world is sound, and this process has published the end of the history. */
    ghost predicate Valid()
      reads this, store, sink
    {
      && store.codec == RoomRules().codec
      && Sound(RoomRules(), Value())
      && |sink.published| <= |history|
      && sink.published == history[|history| - |sink.published|..]
    }

    constructor (store: JsonlEventStore<RoomEvent>, sink: UpdateSink<RoomState>)
      ensures this.store == store && this.sink == sink
      ensures Live() == EmptyRuntime()
      ensures log == [] && history == []
    {
      this.store, this.sink := store, sink;
      rooms, acceptedEvents, latestSequenceBySource, acceptanceSequence := map[], map[], map[], 0;
      log, history := [], [];
    }

    /** Applies the event to a copy of the room; the room itself stays as it is. */
    method ApplyEnvelope(e: Envelope) returns (r: Result<RoomState>)
      ensures r == ApplyToState(RoomRules(), rooms, e)
    {
      var event := ToRoomEvent(e);
      if event.Err? {
        return Err(event.error);
      }
      var copy := new RoomMachine(if e.subject in rooms then rooms[e.subject] else EMPTY_ROOM);
      var error := copy.ApplyEvent(event.value);
      if error.Some? {
        return Err(error.value);
      }
      r := Ok(copy.Value());
    }

    /** Forgets everything and applies the records one by one; it stops at the first that does not apply. */
    method ReplayRecords(records: seq<Record>) returns (error: Option<ErrorCode>)
      modifies this`rooms, this`acceptedEvents, this`latestSequenceBySource, this`acceptanceSequence
      ensures Replay(RoomRules(), records) == Replayed(Live(), error)
    {
      rooms, acceptedEvents, latestSequenceBySource, acceptanceSequence := map[], map[], map[], 0;
      for i := 0 to |records|
        invariant Replay(RoomRules(), records[..i]) == Replayed(Live(), None)
      {
        var r := records[i];
        assert records[..i + 1][..i] == records[..i];
        var applied := ApplyEnvelope(r.envelope);
        if applied.Err? {
          FailedReplayStops(RoomRules(), records, i + 1);
          return Some(applied.error);
        }
        rooms := rooms[r.envelope.subject := applied.value];
        acceptedEvents := acceptedEvents[r.envelope.eventId := r.envelope];
        latestSequenceBySource := latestSequenceBySource[r.envelope.sourceId := r.envelope.sequence];
        acceptanceSequence := Max(acceptanceSequence, r.acceptance);
      }
      assert records[..|records|] == records;
      error := None;
    }

    /** The checks before anything changes, in their order. */
    method Examine(e: Envelope) returns (verdict: Verdict<RoomState>)
      ensures verdict == Judge(RoomRules(), Live(), e)
    {
      if e.eventId in acceptedEvents {
        return if acceptedEvents[e.eventId] == e then Seen else Refuse(Conflict);
      }
      if e.sourceId in latestSequenceBySource && e.sequence <= latestSequenceBySource[e.sourceId] {
        return Refuse(Conflict);
      }
      var applied := ApplyEnvelope(e);
      verdict := if applied.Ok? then Admit(applied.value) else Refuse(applied.error);
    }

    /** Commits a record that is already on disk. */
    method Commit(r: Record, after: RoomState)
      requires r.acceptance == acceptanceSequence + 1
      modifies this
      ensures Live() == Absorb(old(Live()), r, after)
      ensures log == old(log) + [r] && history == old(history) + [Publication(r.envelope, after)]
    {
      acceptanceSequence := acceptanceSequence + 1;
      rooms := rooms[r.envelope.subject := after];
      acceptedEvents := acceptedEvents[r.envelope.eventId := r.envelope];
      latestSequenceBySource := latestSequenceBySource[r.envelope.sourceId := r.envelope.sequence];
      log, history := log + [r], history + [Publication(r.envelope, after)];
    }

    /** One submission, with the two clock readings and whether the disk takes the append. */
    method SubmitEvent(e: Envelope, receivedAt: int, acceptedAt: int, diskOk: bool)
      returns (reply: Reply<RoomState>)
      requires Valid()
      modifies this, store`shards, sink
      ensures Valid()
      ensures (Value(), reply) == Submit(RoomRules(), old(Value()), e, receivedAt, acceptedAt, diskOk)
      ensures reply.status.Accepted? ==> sink.published == old(sink.published) + [Publication(e, reply.snapshot)]
      ensures !reply.status.Accepted? ==> sink.published == old(sink.published)
    {
      hide Sound, Judge, Appended;
      SubmitSound(RoomRules(), Value(), e, receivedAt, acceptedAt, diskOk);
      var before := if e.subject in rooms then rooms[e.subject] else EMPTY_ROOM;
      var verdict := Examine(e);
      match verdict {
        case Seen => reply := Reply(Duplicate, before, None);
        case Refuse(c) => reply := Reply(Rejected, before, Some(c));
        case Admit(after) =>
          var r := Record(e, receivedAt, acceptedAt, acceptanceSequence + 1);
          var error := store.Append(r, diskOk);
          if error.Some? {
            return Reply(StorageFailed, before, error);
          }
          Commit(r, after);
          sink.Publish(e, after);
          reply := Reply(Accepted, after, None);
      }
    }

    method Snapshot(roomId: string) returns (r: Result<RoomState>)
      ensures r == if roomId in rooms then Ok(rooms[roomId]) else Err(NotFound)
    {
      if roomId !in rooms {
        return Err(NotFound);
      }
      r := Ok(rooms[roomId]);
    }
  }

  /**
   * A new process on the store of an earlier one, which stopped in world w. It comes up exactly when every logged
   * envelope is well formed, and then it is in world w again, having published nothing.
   */
  method Boot(store: JsonlEventStore<RoomEvent>, sink: UpdateSink<RoomState>, ghost w: World<RoomState>)
    returns (runtime: Runtime, error: Option<ErrorCode>)
    requires store.codec == RoomRules().codec && store.shards == w.shards && Sound(RoomRules(), w)
    requires sink.published == []
    ensures error.None? <==> AllWellFormed(w.log)
    ensures error.None? ==> runtime.store == store && runtime.sink == sink && runtime.Valid() && runtime.Value() == w
  {
    hide Sound, Replay;
    runtime := new Runtime(store, sink);
    var records := store.ReadAll();
    ReadBackRebuilds(RoomRules(), w);
    if records.Err? {
      return runtime, Some(records.error);
    }
    error := runtime.ReplayRecords(records.value);
    runtime.log, runtime.history := w.log, w.published;
  }
}
