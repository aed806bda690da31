/** A client that follows what the room runtime publishes, over whole runs with failing disks and restarts. */
module Mirror {
  import opened Basics
  import opened Wire
  import opened EventSourcing
  import opened EventLog
  import opened Recovery
  import opened Room
  import opened RoomProtocol
  import opened Notify
  import opened BootstrapTheorems
  import RoomRuntime
  import RoomTheorems

  /** The status of player p that a client holds who applies only the statuses pushed for room id. */
  ghost function MirrorAt(published: seq<Publication<RoomState>>, id: string, p: string): Option<PlayerStatus> {
    if published == [] then None
    else
      var last := published[|published| - 1];
      if last.envelope.subject == id && p in PushedIds(last.envelope, last.snapshot) then StatusOf(last.snapshot, p)
      else MirrorAt(published[..|published| - 1], id, p)
  }

  /** The accepted envelopes of one room. */
  ghost function OwnEnvelopes(log: seq<Record>, id: string): seq<Envelope> {
    Envelopes(Own(log, id))
  }

  lemma FollowOneMore(envelopes: seq<Envelope>, e: Envelope, event: RoomEvent, room: RoomState)
    requires Follow(envelopes).Ok? && ToRoomEvent(e) == Ok(event)
    requires Apply(Follow(envelopes).value.room, event) == Ok(room)
    ensures Follow(envelopes + [e])
         == Ok(Followed(room, Told(Follow(envelopes).value.mirror, PushedIds(e, room), room)))
  {
    assert (envelopes + [e])[..|envelopes|] == envelopes;
  }

  /** What the replay of the log up to r makes of the room of r. */
  lemma ReplayedRoom(front: seq<Record>, r: Record)
    requires Replay(RoomRuntime.RoomRules(), front + [r]).error.None?
    ensures Replay(RoomRuntime.RoomRules(), front).error.None?
    ensures ToRoomEvent(r.envelope).Ok?
    ensures var before, after := Replay(RoomRuntime.RoomRules(), front).live.states,
                                 Replay(RoomRuntime.RoomRules(), front + [r]).live.states;
            var room := Apply(StateOf(RoomRuntime.RoomRules(), before, r.envelope.subject),
                              ToRoomEvent(r.envelope).value);
            room.Ok? && after == before[r.envelope.subject := room.value]
  {
    hide ToRoomEvent, Apply, Replay;
    ReplayApplies(RoomRuntime.RoomRules(), front, r);
  }

  lemma MirrorOneMore(published: seq<Publication<RoomState>>, last: Publication<RoomState>, id: string, p: string)
    ensures MirrorAt(published + [last], id, p)
         == if last.envelope.subject == id && p in PushedIds(last.envelope, last.snapshot)
            then StatusOf(last.snapshot, p) else MirrorAt(published, id, p)
  {
    assert (published + [last])[..|published|] == published;
  }

  /** The client that follows the room's own envelopes is where the publications of the log take it. */
  ghost predicate Follows(log: seq<Record>, id: string) {
    var rules, f := RoomRuntime.RoomRules(), Follow(OwnEnvelopes(log, id));
    && f.Ok?
    && f.value.room == StateOf(rules, Replay(rules, log).live.states, id)
    && forall p :: f.value.mirror(p) == MirrorAt(Publications(rules, log), id, p)
  }

  lemma OtherRoom(front: seq<Record>, r: Record, id: string)
    requires Replay(RoomRuntime.RoomRules(), front + [r]).error.None? && r.envelope.subject != id
    requires Follows(front, id)
    ensures Follows(front + [r], id)
  {
    hide RoomRuntime.RoomRules, ToRoomEvent, Apply, Replay, Own, Envelopes, Follow, PushedIds, StatusOf, MirrorAt,
      Publications;
    var rules := RoomRuntime.RoomRules();
    ReplayedRoom(front, r);
    PublishedOneMore(rules, front, r);
    OwnOneMore(front, r, id);
    assert Own(front, id) + [] == Own(front, id);
    var snapshot := StateOf(rules, Replay(rules, front + [r]).live.states, r.envelope.subject);
    forall p
      ensures MirrorAt(Publications(rules, front + [r]), id, p) == MirrorAt(Publications(rules, front), id, p)
    {
      MirrorOneMore(Publications(rules, front), Publication(r.envelope, snapshot), id, p);
    }
  }

  lemma SameRoom(front: seq<Record>, r: Record)
    requires Replay(RoomRuntime.RoomRules(), front + [r]).error.None?
    requires Follows(front, r.envelope.subject)
    ensures Follows(front + [r], r.envelope.subject)
  {
    hide RoomRuntime.RoomRules, ToRoomEvent, Apply, Replay, Own, Envelopes, Follow, PushedIds, StatusOf, MirrorAt,
      Publications;
    var rules, id := RoomRuntime.RoomRules(), r.envelope.subject;
    ReplayedRoom(front, r);
    PublishedOneMore(rules, front, r);
    OwnOneMore(front, r, id);
    EnvelopesOneMore(Own(front, id), r);
    var before := Follow(OwnEnvelopes(front, id)).value;
    var event := ToRoomEvent(r.envelope).value;
    var room := Apply(before.room, event).value;
    FollowOneMore(OwnEnvelopes(front, id), r.envelope, event, room);
    var after := Follow(OwnEnvelopes(front + [r], id)).value;
    forall p
      ensures after.mirror(p) == MirrorAt(Publications(rules, front + [r]), id, p)
    {
      MirrorOneMore(Publications(rules, front), Publication(r.envelope, room), id, p);
    }
  }

  /** Following a room's own envelopes is following the publications of the whole log. */
  lemma {:induction false} FollowsPublications(log: seq<Record>, id: string)
    requires Replay(RoomRuntime.RoomRules(), log).error.None?
    ensures Follows(log, id)
  {
    hide RoomRuntime.RoomRules, Replay, Follows;
    if log == [] {
      NothingFollowed(id);
    } else {
      var front, r := log[..|log| - 1], log[|log| - 1];
      assert log == front + [r];
      ReplayedRoom(front, r);
      FollowsPublications(front, id);
      if r.envelope.subject == id {
        SameRoom(front, r);
      } else {
        OtherRoom(front, r, id);
      }
    }
  }

  lemma NothingFollowed(id: string)
    ensures Follows([], id)
  {
  }

  /** What the client holds for p is the full query, and that is what the room shows of p. */
  ghost predicate Reflects(held: Option<PlayerStatus>, room: RoomState, p: string) {
    && held == StatusOf(room, p)
    && (held.None? <==> p !in room.players)
    && (held.Some? ==> Shows(room, p, held.value))
  }

  lemma StatusReflects(room: RoomState, ever: set<string>, p: string)
    requires RoomTheorems.RoomInvariant(room, ever)
    ensures Reflects(StatusOf(room, p), room, p)
  {
    hide StatusOf, Shows, RoomTheorems.RoomInvariant;
    if p in room.players {
      assert StatusOf(room, p).Some? by {
        hide *;
        PresentHasStatus(room, ever, p);
      }
      StatusExactly(room, ever, p, StatusOf(room, p).value);
    } else {
      AbsentHasNone(room, p);
    }
  }

  lemma PresentHasStatus(room: RoomState, ever: set<string>, p: string)
    requires p in room.players
    ensures StatusOf(room, p).Some?
  {
  }

  lemma AbsentHasNone(room: RoomState, p: string)
    requires p !in room.players
    ensures StatusOf(room, p).None?
  {
  }

  /**
   * Over every run of the room runtime, with failing disks and restarts: if no player of a room lost a device in
   * silence, a client that applies only what was published for the room holds, for exactly the players of the live
   * room, a status that shows the player's name, team and readiness, the bound device and its online flag, the
   * position, and the phase and battle of the room.
   */
  lemma MirrorAgrees(ops: seq<Op>, id: string)
    requires Run(RoomRuntime.RoomRules(), ops).Ok?
    requires AllAnnounced(OwnEnvelopes(Run(RoomRuntime.RoomRules(), ops).value.world.log, id))
    ensures var rules := RoomRuntime.RoomRules();
            var w := Run(rules, ops).value.world;
            forall p :: Reflects(MirrorAt(w.published, id, p), StateOf(rules, w.live.states, id), p)
  {
    hide Reflects, Run, StatusOf, Follow, Publications, Replay, TablesSound, OwnEnvelopes, MirrorAt,
      AllAnnounced, RoomTheorems.RoomInvariant;
    var rules := RoomRuntime.RoomRules();
    KeyProper();
    RunSound(rules, ops);
    var w := Run(rules, ops).value.world;
    FollowsPublications(w.log, id);
    var ever := MirrorUpToDate(OwnEnvelopes(w.log, id));
    var f := Follow(OwnEnvelopes(w.log, id)).value;
    forall p
      ensures Reflects(MirrorAt(w.published, id, p), StateOf(rules, w.live.states, id), p)
    {
      assert f.mirror(p) == StatusOf(f.room, p);
      StatusReflects(f.room, ever, p);
    }
  }

  lemma KeyProper()
    ensures ProperIdKey(RoomRuntime.RoomRules().codec.idKey)
  {
  }

  ghost predicate UnbindFree(log: seq<Record>) {
    forall r <- log :: r.envelope.eventType != "room_device_unbound"
  }

  lemma {:induction false} LogOfSubmissions(ops: seq<Op>)
    requires Run(RoomRuntime.RoomRules(), ops).Ok?
    requires forall op <- ops :: op.Submission? ==> op.envelope.eventType != "room_device_unbound"
    ensures UnbindFree(Run(RoomRuntime.RoomRules(), ops).value.world.log)
  {
    if ops != [] {
      hide Sound, Restart, Submit, RoomRuntime.RoomRules, ProperIdKey;
      var rules, front, op := RoomRuntime.RoomRules(), ops[..|ops| - 1], ops[|ops| - 1];
      LogOfSubmissions(front);
      KeyProper();
      RunSound(rules, front);
      var w := Run(rules, front).value.world;
      if op.Reboot? {
        RestartRecovers(rules, w);
      } else {
        SubmitSound(rules, w, op.envelope, op.receivedAt, op.acceptedAt, op.diskOk);
      }
    }
  }

  /** Runs in which nobody unbinds a device, in any room, need no further condition. */
  lemma UnbindFreeMirrorAgrees(ops: seq<Op>, id: string)
    requires Run(RoomRuntime.RoomRules(), ops).Ok?
    requires forall op <- ops :: op.Submission? ==> op.envelope.eventType != "room_device_unbound"
    ensures var rules := RoomRuntime.RoomRules();
            var w := Run(rules, ops).value.world;
            forall p :: Reflects(MirrorAt(w.published, id, p), StateOf(rules, w.live.states, id), p)
  {
    hide Run, Reflects, MirrorAt, AllAnnounced;
    LogOfSubmissions(ops);
    var log := Run(RoomRuntime.RoomRules(), ops).value.world.log;
    OwnSubset(log, id);
    forall e <- OwnEnvelopes(log, id)
      ensures e.eventType != "room_device_unbound"
    {
      var i :| 0 <= i < |OwnEnvelopes(log, id)| && OwnEnvelopes(log, id)[i] == e;
      assert Own(log, id)[i] in Own(log, id);
    }
    UnbindFreeAnnounced(OwnEnvelopes(log, id));
    MirrorAgrees(ops, id);
  }
}
