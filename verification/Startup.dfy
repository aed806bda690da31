/** Every open room of the room runtime can still be started, by submissions that the runtime accepts. */
module Startup {
  import opened Basics
  import opened Wire
  import opened EventSourcing
  import opened Recovery
  import opened Room
  import opened RoomProtocol
  import opened RoomTheorems
  import Decoding
  import RoomRuntime
  import Worlds

  // ---- envelopes that decode to a given event -----------------------------------------------

  function RoomEnvelope(e: RoomEvent, eventType: string, source: string, payload: map<string, Json>): Envelope {
    Envelope(SCHEMA_VERSION, e.eventId, eventType, e.roomId, source, 1, e.occurredAtMs, Obj(payload))
  }

  lemma JoinSent(e: RoomEvent, source: string) returns (envelope: Envelope)
    requires e.PlayerJoined? && e.playerId != "" && e.displayName != "" && e.teamId != ""
    requires e.eventId != "" && e.roomId != "" && source != ""
    ensures WellFormed(envelope) && ToRoomEvent(envelope) == Ok(e) && envelope.sourceId == source
  {
    hide ToRoomEvent;
    envelope := RoomEnvelope(e, "room_player_joined", source,
                             map["player_id" := Str(e.playerId), "display_name" := Str(e.displayName),
                                 "team_id" := Str(e.teamId), "module_id" := Str(e.moduleId)]);
    Decoding.RoomDecoding(envelope, e);
  }

  lemma ReadySent(e: RoomEvent, source: string) returns (envelope: Envelope)
    requires e.ReadyChanged? && e.playerId != "" && e.eventId != "" && e.roomId != "" && source != ""
    ensures WellFormed(envelope) && ToRoomEvent(envelope) == Ok(e) && envelope.sourceId == source
  {
    hide ToRoomEvent;
    envelope := RoomEnvelope(e, "room_player_ready_changed", source,
                             map["player_id" := Str(e.playerId), "ready" := Bool(e.ready)]);
    Decoding.RoomDecoding(envelope, e);
  }

  lemma StartSent(e: RoomEvent, source: string) returns (envelope: Envelope)
    requires e.RoomStarted? && e.battleId != "" && e.durationMs > 0 && e.eventId != "" && e.roomId != "" && source != ""
    ensures WellFormed(envelope) && ToRoomEvent(envelope) == Ok(e) && envelope.sourceId == source
  {
    hide ToRoomEvent;
    envelope := RoomEnvelope(e, "room_started", source,
                             map["battle_id" := Str(e.battleId), "duration_ms" := Int(e.durationMs)]);
    Decoding.RoomDecoding(envelope, e);
  }

  // ---- accepted submissions -----------------------------------------------------------------

  /** All operations are well-formed submissions on a working disk. */
  ghost predicate Submissions(ops: seq<Op>) {
    forall op <- ops :: op.Submission? && op.diskOk && WellFormed(op.envelope)
  }

  /** The run goes on with more, and each of them is accepted. */
  ghost predicate AllAccepted(ops: seq<Op>, more: seq<Op>) {
    var before, after := Run(RoomRuntime.RoomRules(), ops), Run(RoomRuntime.RoomRules(), ops + more);
    && before.Ok? && after.Ok?
    && |after.value.replies| == |before.value.replies| + |more|
    && before.value.replies <= after.value.replies
    && forall i | |before.value.replies| <= i < |after.value.replies| :: after.value.replies[i].status.Accepted?
  }

  ghost function RoomAfter(ops: seq<Op>, id: string): RoomState
    requires Run(RoomRuntime.RoomRules(), ops).Ok?
  {
    StateOf(RoomRuntime.RoomRules(), Run(RoomRuntime.RoomRules(), ops).value.world.live.states, id)
  }

  ghost function Live(ops: seq<Op>): Runtime<RoomState>
    requires Run(RoomRuntime.RoomRules(), ops).Ok?
  {
    Run(RoomRuntime.RoomRules(), ops).value.world.live
  }

  /** A new event from a new source that the room allows is accepted. */
  lemma OneAccepted(ops: seq<Op>, envelope: Envelope, e: RoomEvent)
    requires Run(RoomRuntime.RoomRules(), ops).Ok? && WellFormed(envelope) && ToRoomEvent(envelope) == Ok(e)
    requires envelope.eventId !in Live(ops).accepted && envelope.sourceId !in Live(ops).latest
    requires Apply(RoomAfter(ops, envelope.subject), e).Ok?
    ensures var more := [Submission(envelope, 0, 0, true)];
            && Submissions(more) && AllAccepted(ops, more)
            && Ok(RoomAfter(ops + more, envelope.subject)) == Apply(RoomAfter(ops, envelope.subject), e)
  {
    hide ToRoomEvent, Apply, WellFormed;
    RunOneMore(RoomRuntime.RoomRules(), ops, Submission(envelope, 0, 0, true));
  }

  lemma AcceptedInTurn(ops: seq<Op>, first: seq<Op>, rest: seq<Op>)
    requires AllAccepted(ops, first) && AllAccepted(ops + first, rest)
    requires Submissions(first) && Submissions(rest)
    ensures AllAccepted(ops, first + rest) && Submissions(first + rest)
    ensures (ops + first) + rest == ops + (first + rest)
  {
    hide Run;
    assert (ops + first) + rest == ops + (first + rest);
  }

  // ---- starting -----------------------------------------------------------------------------

  /** An open room whose players have names. */
  ghost predicate Startable(s: RoomState, id: string) {
    s.roomId == id && id != "" && s.phase.Open? && s.players != map[] && "" !in s.players
  }

  lemma StartApplies(s: RoomState, e: RoomEvent, id: string)
    requires Startable(s, id) && Unready(s.players) == {}
    requires e.RoomStarted? && e.roomId == id && e.battleId != ""
    ensures Apply(s, e).Ok?
    ensures Apply(s, e).value.phase.Active? && Apply(s, e).value.battleId == Some(e.battleId)
  {
    assert AllReady(s.players) by {
      forall p | p in s.players
        ensures s.players[p].ready
      {
        assert p !in Unready(s.players);
      }
    }
  }

  lemma ReadyApplies(s: RoomState, e: RoomEvent, id: string)
    requires Startable(s, id)
    requires e.ReadyChanged? && e.roomId == id && e.ready && e.playerId in Unready(s.players)
    ensures Apply(s, e).Ok? && Startable(Apply(s, e).value, id)
    ensures Unready(Apply(s, e).value.players) == Unready(s.players) - {e.playerId}
  {
    assert e.playerId in Apply(s, e).value.players;
  }

  lemma JoinApplies(s: RoomState, ever: set<string>, id: string) returns (team: string)
    requires RoomInvariant(s, ever) && s.roomId == id && id != "" && s.phase.Open? && s.players == map[]
    ensures team != ""
    ensures forall eventId :: Joined(s, PlayerJoined(id, eventId, 0, "p", "p", team, ""), id)
  {
    team := FreeTeam(s, ever);
    SeatFree(s, team);
    assert WithinCapacity(s.players, team, s.teams[team]);
    forall eventId
      ensures Joined(s, PlayerJoined(id, eventId, 0, "p", "p", team, ""), id)
    {
      var e := PlayerJoined(id, eventId, 0, "p", "p", team, "");
      assert Unready(Apply(s, e).value.players) == {"p"};
    }
  }

  /** The empty room takes its first player, who is not ready. */
  ghost predicate Joined(s: RoomState, e: RoomEvent, id: string) {
    Apply(s, e).Ok? && Startable(Apply(s, e).value, id) && |Unready(Apply(s, e).value.players)| == 1
  }

  lemma StartReady(ops: seq<Op>, id: string, battleId: string) returns (more: seq<Op>)
    requires Run(RoomRuntime.RoomRules(), ops).Ok? && Startable(RoomAfter(ops, id), id) && battleId != ""
    requires Unready(RoomAfter(ops, id).players) == {}
    ensures Submissions(more) && |more| == 1 && AllAccepted(ops, more)
    ensures RoomAfter(ops + more, id).phase.Active? && RoomAfter(ops + more, id).battleId == Some(battleId)
  {
    hide Run, Apply, ToRoomEvent, RoomAfter, AllAccepted, Submissions, Unready, RoomRuntime.RoomRules;
    var eventId := FreshName(Live(ops).accepted.Keys);
    var source := FreshName(Live(ops).latest.Keys);
    var e := RoomStarted(id, eventId, 0, battleId, 1);
    var envelope := StartSent(e, source);
    assert Decoded(envelope, e);
    StartApplies(RoomAfter(ops, id), e, id);
    OneAccepted(ops, envelope, e);
    more := [Submission(envelope, 0, 0, true)];
  }

  lemma ReadyOne(ops: seq<Op>, id: string, p: string) returns (more: seq<Op>)
    requires Run(RoomRuntime.RoomRules(), ops).Ok? && Startable(RoomAfter(ops, id), id)
    requires p in Unready(RoomAfter(ops, id).players)
    ensures Submissions(more) && |more| == 1 && AllAccepted(ops, more)
    ensures Startable(RoomAfter(ops + more, id), id)
    ensures Unready(RoomAfter(ops + more, id).players) == Unready(RoomAfter(ops, id).players) - {p}
  {
    UnreadyNamed(RoomAfter(ops, id), id, p);
    hide Run, Apply, ToRoomEvent, RoomAfter, AllAccepted, Submissions, Unready, RoomRuntime.RoomRules;
    var eventId := FreshName(Live(ops).accepted.Keys);
    var source := FreshName(Live(ops).latest.Keys);
    var e := ReadyChanged(id, eventId, 0, p, true);
    var envelope := ReadySent(e, source);
    assert Decoded(envelope, e);
    ReadyApplies(RoomAfter(ops, id), e, id);
    OneAccepted(ops, envelope, e);
    more := [Submission(envelope, 0, 0, true)];
  }

  lemma UnreadyNamed(s: RoomState, id: string, p: string)
    requires Startable(s, id) && p in Unready(s.players)
    ensures p != ""
  {
  }

  /** One submission for each unready player, then the start. */
  lemma {:induction false} StartRoster(ops: seq<Op>, id: string, battleId: string) returns (more: seq<Op>)
    requires Run(RoomRuntime.RoomRules(), ops).Ok? && Startable(RoomAfter(ops, id), id) && battleId != ""
    ensures Submissions(more) && AllAccepted(ops, more)
    ensures |more| == |Unready(RoomAfter(ops, id).players)| + 1
    ensures RoomAfter(ops + more, id).phase.Active? && RoomAfter(ops + more, id).battleId == Some(battleId)
    decreases |Unready(RoomAfter(ops, id).players)|
  {
    hide Run, AllAccepted, Submissions, Startable, RoomAfter;
    var unready := Unready(RoomAfter(ops, id).players);
    if unready == {} {
      more := StartReady(ops, id, battleId);
    } else {
      var p :| p in unready;
      var first := ReadyOne(ops, id, p);
      assert Run(RoomRuntime.RoomRules(), ops + first).Ok? by {
        AcceptedRuns(ops, first);
      }
      var rest := StartRoster(ops + first, id, battleId);
      AcceptedInTurn(ops, first, rest);
      more := first + rest;
    }
  }

  lemma AcceptedRuns(ops: seq<Op>, more: seq<Op>)
    requires AllAccepted(ops, more)
    ensures Run(RoomRuntime.RoomRules(), ops).Ok? && Run(RoomRuntime.RoomRules(), ops + more).Ok?
  {
  }

  /** A first player for an empty open room. */
  lemma JoinFirst(ops: seq<Op>, id: string, ever: set<string>) returns (more: seq<Op>)
    requires Run(RoomRuntime.RoomRules(), ops).Ok?
    requires RoomInvariant(RoomAfter(ops, id), ever) && Worlds.Names(RoomAfter(ops, id), id)
    requires RoomAfter(ops, id).phase.Open? && RoomAfter(ops, id).players == map[]
    ensures Submissions(more) && |more| == 1 && AllAccepted(ops, more)
    ensures Startable(RoomAfter(ops + more, id), id)
    ensures |Unready(RoomAfter(ops + more, id).players)| == 1
  {
    hide Run, Apply, ToRoomEvent, RoomAfter, AllAccepted, Submissions, Unready, Startable, RoomInvariant,
      RoomRuntime.RoomRules;
    var eventId := FreshName(Live(ops).accepted.Keys);
    var source := FreshName(Live(ops).latest.Keys);
    var team := JoinApplies(RoomAfter(ops, id), ever, id);
    var e := PlayerJoined(id, eventId, 0, "p", "p", team, "");
    assert Joined(RoomAfter(ops, id), e, id);
    var envelope := JoinSent(e, source);
    assert Decoded(envelope, e);
    OneAccepted(ops, envelope, e);
    more := [Submission(envelope, 0, 0, true)];
  }

  /**
   * In every world of every run of the room runtime, each open room can be started: there are well-formed submissions,
   * all of them accepted, at most three more than the room has unready players, after which the room is active with its
   * battle.
   */
  lemma OpenRoomStarts(ops: seq<Op>, id: string, battleId: string) returns (more: seq<Op>)
    requires Run(RoomRuntime.RoomRules(), ops).Ok? && battleId != ""
    requires id in Live(ops).states && Live(ops).states[id].phase.Open?
    ensures Submissions(more) && AllAccepted(ops, more)
    ensures |more| <= |Unready(RoomAfter(ops, id).players)| + 3
    ensures RoomAfter(ops + more, id).phase.Active? && RoomAfter(ops + more, id).battleId == Some(battleId)
  {
    hide Run, AllAccepted, Submissions, RoomInvariant, Unready, Worlds.RoomReached;
    var events := Worlds.RoomsReached(ops, id);
    if RoomAfter(ops, id).players == map[] {
      var first := JoinFirst(ops, id, EverJoined(events));
      AcceptedRuns(ops, first);
      var rest := StartRoster(ops + first, id, battleId);
      AcceptedInTurn(ops, first, rest);
      more := first + rest;
    } else {
      NamedPlayers(RoomAfter(ops, id), EverJoined(events));
      more := StartRoster(ops, id, battleId);
    }
  }

  lemma NamedPlayers(s: RoomState, ever: set<string>)
    requires RoomInvariant(s, ever)
    ensures "" !in s.players
  {
    assert "" in s.players ==> PlayerSound("", s.players[""], s.teams);
  }
}
