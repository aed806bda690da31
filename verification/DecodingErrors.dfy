/** With which error envelopes are refused that do not decode. */
module DecodingErrors {
  import opened Basics
  import opened Wire
  import BattleProtocol
  import Room
  import RoomProtocol

  ghost function ErrorOf<T>(r: Result<T>): Option<ErrorCode> {
    if r.Err? then Some(r.error) else None
  }

  function First(a: Option<ErrorCode>, b: Option<ErrorCode>): Option<ErrorCode> {
    if a.Some? then a else b
  }

  function Unless(ok: bool): Option<ErrorCode> {
    if ok then None else Some(InvalidPayload)
  }

  // ---- fields -------------------------------------------------------------------------------

  datatype Kind = Text | OptionalText | Whole | OptionalWhole | Count | Natural | Flag | Number | Rounded | Object

  /** Whether a value may stand where a field of this kind is expected. */
  ghost predicate Fits(v: Json, kind: Kind) {
    match kind
    case Text => v.Str? && v.s != ""
    case OptionalText => v.Null? || v.Str?
    case Whole => v.Int?
    case OptionalWhole => v.Null? || v.Int?
    case Count => v.Int? && 0 <= v.n <= 0xFFFF_FFFF
    case Natural => v.Int? && v.n >= 0
    case Flag => v.Bool?
    case Number => v.Int? || v.Num?
    case Rounded => (v.Int? || v.Num?) && -0x8000_0000 <= Round(if v.Int? then v.n as real else v.x) <= 0x7FFF_FFFF
    case Object => v.Obj?
  }

  ghost function FieldError(j: Json, key: string, kind: Kind): Option<ErrorCode> {
    match Field(j, key)
    case None => if kind.OptionalText? || kind.OptionalWhole? then None else Some(MissingField)
    case Some(v) => Unless(Fits(v, kind))
  }

  ghost function WholeAt(j: Json, key: string): int {
    match Field(j, key) case Some(Int(n)) => n case _ => 0
  }

  ghost function NumberAt(j: Json, key: string): real {
    match Field(j, key) case Some(Int(n)) => n as real case Some(Num(x)) => x case _ => 0.0
  }

  // ---- battle events ------------------------------------------------------------------------

  ghost function BattlePlayerJoinedError(p: Json): Option<ErrorCode> {
    First(FieldError(p, "player_id", Text),
    First(FieldError(p, "display_name", Text),
    First(FieldError(p, "team_id", Text),
    FieldError(p, "module_id", Text))))
  }

  lemma BattlePlayerJoinedErrs(e: Envelope)
    ensures ErrorOf(BattleProtocol.PlayerJoinedOf(e)) == BattlePlayerJoinedError(e.payload)
  {
    hide BattleProtocol.Decoded, Wrap32, Round;
  }

  ghost function BattleStartedError(p: Json): Option<ErrorCode> {
    First(FieldError(p, "mode", Text),
    First(FieldError(p, "duration_ms", Whole),
    Unless(WholeAt(p, "duration_ms") > 0)))
  }

  lemma BattleStartedErrs(e: Envelope)
    ensures ErrorOf(BattleProtocol.BattleStartedOf(e)) == BattleStartedError(e.payload)
  {
    hide BattleProtocol.Decoded, Wrap32, Round;
  }

  ghost function BattleShotError(p: Json): Option<ErrorCode> {
    First(FieldError(p, "player_id", Text),
    First(FieldError(p, "weapon_id", Text),
    First(FieldError(p, "ammo_after", Whole),
    Unless(Wrap32(WholeAt(p, "ammo_after")) >= 0))))
  }

  lemma BattleShotErrs(e: Envelope)
    ensures ErrorOf(BattleProtocol.ShotOf(e)) == BattleShotError(e.payload)
  {
    hide BattleProtocol.Decoded, Wrap32, Round;
  }

  ghost function BattleHitError(p: Json): Option<ErrorCode> {
    First(FieldError(p, "attacker_player_id", Text),
    First(FieldError(p, "target_player_id", Text),
    First(FieldError(p, "weapon_id", Text),
    First(FieldError(p, "damage", Rounded),
    First(FieldError(p, "hit_zone", Text),
    Unless(Round(NumberAt(p, "damage")) > 0))))))
  }

  lemma BattleHitErrs(e: Envelope)
    ensures ErrorOf(BattleProtocol.HitOf(e)) == BattleHitError(e.payload)
  {
    hide BattleProtocol.Decoded, Wrap32, Round;
  }

  ghost function BattlePlayerStateError(p: Json): Option<ErrorCode> {
    First(FieldError(p, "player_id", Text),
    First(FieldError(p, "health", Whole),
    First(FieldError(p, "ammo", Whole),
    First(FieldError(p, "alive", Flag),
    Unless(Wrap32(WholeAt(p, "health")) >= 0 && Wrap32(WholeAt(p, "ammo")) >= 0)))))
  }

  lemma BattlePlayerStateErrs(e: Envelope)
    ensures ErrorOf(BattleProtocol.PlayerStateOf(e)) == BattlePlayerStateError(e.payload)
  {
    hide BattleProtocol.Decoded, Wrap32, Round;
  }

  ghost function BattleEndedError(p: Json): Option<ErrorCode> {
    FieldError(p, "reason", Text)
  }

  lemma BattleEndedErrs(e: Envelope)
    ensures ErrorOf(BattleProtocol.BattleEndedOf(e)) == BattleEndedError(e.payload)
  {
    hide BattleProtocol.Decoded, Wrap32, Round;
  }

  ghost function BattlePausedError(p: Json): Option<ErrorCode> {
    FieldError(p, "reason", Text)
  }

  lemma BattlePausedErrs(e: Envelope)
    ensures ErrorOf(BattleProtocol.BattlePausedOf(e)) == BattlePausedError(e.payload)
  {
    hide BattleProtocol.Decoded, Wrap32, Round;
  }

  /** Why an envelope is not a battle event; None if it is one. */
  ghost function BattleError(e: Envelope): Option<ErrorCode> {
    match e.eventType
    case "player_joined" => BattlePlayerJoinedError(e.payload)
    case "battle_started" => BattleStartedError(e.payload)
    case "shot" => BattleShotError(e.payload)
    case "hit" => BattleHitError(e.payload)
    case "player_state" => BattlePlayerStateError(e.payload)
    case "battle_ended" => BattleEndedError(e.payload)
    case "battle_paused" => BattlePausedError(e.payload)
    case "battle_resumed" => None
    case _ => Some(UnknownEventType)
  }

  /** Decoding refuses an envelope with the error of the first field that is missing or wrong, in reading order. */
  lemma BattleErrors(e: Envelope)
    ensures ErrorOf(BattleProtocol.ToCoreEvent(e)) == BattleError(e)
  {
    hide BattleProtocol.Decoded, BattleProtocol.PlayerJoinedOf, BattleProtocol.BattleStartedOf,
      BattleProtocol.ShotOf, BattleProtocol.HitOf, BattleProtocol.PlayerStateOf, BattleProtocol.BattleEndedOf,
      BattleProtocol.BattlePausedOf, BattlePlayerJoinedError, BattleStartedError, BattleShotError,
      BattleHitError, BattlePlayerStateError, BattleEndedError, BattlePausedError;
    BattlePlayerJoinedErrs(e);
    BattleStartedErrs(e);
    BattleShotErrs(e);
    BattleHitErrs(e);
    BattlePlayerStateErrs(e);
    BattleEndedErrs(e);
    BattlePausedErrs(e);
  }

  // ---- room events --------------------------------------------------------------------------

  ghost function TeamError(item: Json): Option<ErrorCode> {
    First(Unless(item.Obj?),
    First(FieldError(item, "team_id", Text),
    First(FieldError(item, "display_name", Text),
    FieldError(item, "max_players", Count))))
  }

  /** The error of the first bad team from the i-th on. */
  ghost function TeamsError(items: seq<Json>, i: nat): Option<ErrorCode>
    requires i <= |items|
    decreases |items| - i
  {
    if i == |items| then None else First(TeamError(items[i]), TeamsError(items, i + 1))
  }

  ghost function TeamListError(j: Json, key: string): Option<ErrorCode> {
    match Field(j, key)
    case None => Some(MissingField)
    case Some(v) => if v.Arr? then TeamsError(v.items, 0) else Some(InvalidPayload)
  }

  lemma TeamErrs(item: Json)
    ensures ErrorOf(RoomProtocol.TeamSpecOf(item)) == TeamError(item)
  {
  }

  lemma TeamsOneMore(front: seq<Json>, item: Json)
    requires RoomProtocol.TeamSpecsOf(front).Ok?
    ensures ErrorOf(RoomProtocol.TeamSpecsOf(front + [item])) == TeamError(item)
  {
    assert (front + [item])[..|front|] == front;
    TeamErrs(item);
  }

  lemma {:induction false} TeamsErrs(items: seq<Json>, i: nat)
    requires i <= |items| && RoomProtocol.TeamSpecsOf(items[..i]).Ok?
    ensures ErrorOf(RoomProtocol.TeamSpecsOf(items)) == TeamsError(items, i)
    decreases |items| - i
  {
    hide RoomProtocol.TeamSpecsOf, TeamError;
    if i < |items| {
      assert items[..i + 1] == items[..i] + [items[i]];
      TeamsOneMore(items[..i], items[i]);
      if RoomProtocol.TeamSpecsOf(items[..i + 1]).Err? {
        RoomProtocol.BadItemsStayBad(items, i + 1);
      } else {
        TeamsErrs(items, i + 1);
      }
    } else {
      assert items[..i] == items;
    }
  }

  lemma TeamListErrs(j: Json, key: string)
    ensures ErrorOf(RoomProtocol.RequiredTeamSpecs(j, key)) == TeamListError(j, key)
  {
    hide TeamsError;
    if Field(j, key).Some? && Field(j, key).value.Arr? {
      TeamsErrs(Field(j, key).value.items, 0);
    }
  }

  ghost function RoomCreatedError(p: Json): Option<ErrorCode> {
    First(FieldError(p, "room_code", OptionalText),
    First(FieldError(p, "name", Text),
    First(FieldError(p, "mode", Text),
    First(FieldError(p, "host_player_id", OptionalText),
    First(FieldError(p, "max_players", Count),
    TeamListError(p, "teams"))))))
  }

  lemma RoomCreatedErrs(e: Envelope)
    ensures ErrorOf(RoomProtocol.RoomCreatedOf(e)) == RoomCreatedError(e.payload)
  {
    hide RoomProtocol.Decoded, Wrap32, Round, RoomProtocol.RequiredTeamSpecs, TeamListError;
    TeamListErrs(e.payload, "teams");
  }

  ghost function RoomPlayerJoinedError(p: Json): Option<ErrorCode> {
    First(FieldError(p, "player_id", Text),
    First(FieldError(p, "display_name", Text),
    First(FieldError(p, "team_id", Text),
    FieldError(p, "module_id", OptionalText))))
  }

  lemma RoomPlayerJoinedErrs(e: Envelope)
    ensures ErrorOf(RoomProtocol.PlayerJoinedOf(e)) == RoomPlayerJoinedError(e.payload)
  {
    hide RoomProtocol.Decoded, Wrap32, Round;
  }

  ghost function RoomPlayerLeftError(p: Json): Option<ErrorCode> {
    FieldError(p, "player_id", Text)
  }

  lemma RoomPlayerLeftErrs(e: Envelope)
    ensures ErrorOf(RoomProtocol.PlayerLeftOf(e)) == RoomPlayerLeftError(e.payload)
  {
    hide RoomProtocol.Decoded, Wrap32, Round;
  }

  ghost function RoomTeamChangedError(p: Json): Option<ErrorCode> {
    First(FieldError(p, "player_id", Text),
    FieldError(p, "team_id", Text))
  }

  lemma RoomTeamChangedErrs(e: Envelope)
    ensures ErrorOf(RoomProtocol.TeamChangedOf(e)) == RoomTeamChangedError(e.payload)
  {
    hide RoomProtocol.Decoded, Wrap32, Round;
  }

  ghost function RoomReadyChangedError(p: Json): Option<ErrorCode> {
    First(FieldError(p, "player_id", Text),
    FieldError(p, "ready", Flag))
  }

  lemma RoomReadyChangedErrs(e: Envelope)
    ensures ErrorOf(RoomProtocol.ReadyChangedOf(e)) == RoomReadyChangedError(e.payload)
  {
    hide RoomProtocol.Decoded, Wrap32, Round;
  }

  ghost function RoomDeviceRegisteredError(p: Json): Option<ErrorCode> {
    First(FieldError(p, "device_id", Text),
    First(FieldError(p, "device_kind", Text),
    First(FieldError(p, "display_name", OptionalText),
    First(FieldError(p, "battery_percent", OptionalWhole),
    FieldError(p, "signal_strength", OptionalWhole)))))
  }

  lemma RoomDeviceRegisteredErrs(e: Envelope)
    ensures ErrorOf(RoomProtocol.DeviceRegisteredOf(e)) == RoomDeviceRegisteredError(e.payload)
  {
    hide RoomProtocol.Decoded, Wrap32, Round;
  }

  ghost function RoomDeviceHeartbeatError(p: Json): Option<ErrorCode> {
    First(FieldError(p, "device_id", Text),
    First(FieldError(p, "battery_percent", OptionalWhole),
    First(FieldError(p, "signal_strength", OptionalWhole),
    FieldError(p, "online", Flag))))
  }

  lemma RoomDeviceHeartbeatErrs(e: Envelope)
    ensures ErrorOf(RoomProtocol.DeviceHeartbeatOf(e)) == RoomDeviceHeartbeatError(e.payload)
  {
    hide RoomProtocol.Decoded, Wrap32, Round;
  }

  ghost function RoomDeviceBoundError(p: Json): Option<ErrorCode> {
    First(FieldError(p, "device_id", Text),
    FieldError(p, "player_id", Text))
  }

  lemma RoomDeviceBoundErrs(e: Envelope)
    ensures ErrorOf(RoomProtocol.DeviceBoundOf(e)) == RoomDeviceBoundError(e.payload)
  {
    hide RoomProtocol.Decoded, Wrap32, Round;
  }

  ghost function RoomDeviceUnboundError(p: Json): Option<ErrorCode> {
    FieldError(p, "device_id", Text)
  }

  lemma RoomDeviceUnboundErrs(e: Envelope)
    ensures ErrorOf(RoomProtocol.DeviceUnboundOf(e)) == RoomDeviceUnboundError(e.payload)
  {
    hide RoomProtocol.Decoded, Wrap32, Round;
  }

  ghost function RoomPositionUpdatedError(p: Json): Option<ErrorCode> {
    First(FieldError(p, "player_id", Text),
    First(FieldError(p, "source_device_id", Text),
    First(FieldError(p, "x", Number),
    First(FieldError(p, "y", Number),
    First(FieldError(p, "heading_deg", Number),
    FieldError(p, "velocity_mps", Number))))))
  }

  lemma RoomPositionUpdatedErrs(e: Envelope)
    ensures ErrorOf(RoomProtocol.PositionUpdatedOf(e)) == RoomPositionUpdatedError(e.payload)
  {
    hide RoomProtocol.Decoded, Wrap32, Round;
  }

  ghost function RoomStartedError(p: Json): Option<ErrorCode> {
    First(FieldError(p, "battle_id", Text),
    First(FieldError(p, "duration_ms", Whole),
    Unless(WholeAt(p, "duration_ms") > 0)))
  }

  lemma RoomStartedErrs(e: Envelope)
    ensures ErrorOf(RoomProtocol.RoomStartedOf(e)) == RoomStartedError(e.payload)
  {
    hide RoomProtocol.Decoded, Wrap32, Round;
  }

  /** Why an envelope is not a room event; None if it is one. */
  ghost function RoomError(e: Envelope): Option<ErrorCode> {
    match e.eventType
    case "room_created" => RoomCreatedError(e.payload)
    case "room_player_joined" => RoomPlayerJoinedError(e.payload)
    case "room_player_left" => RoomPlayerLeftError(e.payload)
    case "room_player_team_changed" => RoomTeamChangedError(e.payload)
    case "room_player_ready_changed" => RoomReadyChangedError(e.payload)
    case "room_device_registered" => RoomDeviceRegisteredError(e.payload)
    case "room_device_heartbeat_updated" => RoomDeviceHeartbeatError(e.payload)
    case "room_device_bound" => RoomDeviceBoundError(e.payload)
    case "room_device_unbound" => RoomDeviceUnboundError(e.payload)
    case "room_player_position_updated" => RoomPositionUpdatedError(e.payload)
    case "room_started" => RoomStartedError(e.payload)
    case "room_ended" => None
    case "room_closed" => None
    case _ => Some(UnknownEventType)
  }

  /** Decoding refuses an envelope with the error of the first field that is missing or wrong, in reading order. */
  lemma RoomErrors(e: Envelope)
    ensures ErrorOf(RoomProtocol.ToRoomEvent(e)) == RoomError(e)
  {
    hide RoomProtocol.Decoded, RoomProtocol.IsDeviceEvent, RoomProtocol.IsPhaseEvent,
      RoomProtocol.NamesDevice, RoomProtocol.ChangesPhase, RoomProtocol.RoomCreatedOf,
      RoomProtocol.PlayerJoinedOf, RoomProtocol.PlayerLeftOf, RoomProtocol.TeamChangedOf,
      RoomProtocol.ReadyChangedOf, RoomProtocol.DeviceRegisteredOf, RoomProtocol.DeviceHeartbeatOf,
      RoomProtocol.DeviceBoundOf, RoomProtocol.DeviceUnboundOf, RoomProtocol.PositionUpdatedOf,
      RoomProtocol.RoomStartedOf, RoomCreatedError, RoomPlayerJoinedError, RoomPlayerLeftError,
      RoomTeamChangedError, RoomReadyChangedError, RoomDeviceRegisteredError, RoomDeviceHeartbeatError,
      RoomDeviceBoundError, RoomDeviceUnboundError, RoomPositionUpdatedError, RoomStartedError;
    RoomCreatedErrs(e);
    RoomPlayerJoinedErrs(e);
    RoomPlayerLeftErrs(e);
    RoomTeamChangedErrs(e);
    RoomReadyChangedErrs(e);
    RoomDeviceRegisteredErrs(e);
    RoomDeviceHeartbeatErrs(e);
    RoomDeviceBoundErrs(e);
    RoomDeviceUnboundErrs(e);
    RoomPositionUpdatedErrs(e);
    RoomStartedErrs(e);
  }

  // ---- envelopes and records ----------------------------------------------------------------

  ghost function TextAt(j: Json, key: string): string {
    match Field(j, key) case Some(Str(text)) => text case _ => ""
  }

  /** What the fields of the tree say, in version 0. */
  ghost function EnvelopeAt(idKey: string, j: Json): Envelope {
    var n := WholeAt(j, "sequence");
    Envelope(0, TextAt(j, "event_id"), TextAt(j, "event_type"), TextAt(j, idKey), TextAt(j, "source_id"),
             if n >= 0 then n else 0, WholeAt(j, "occurred_at_ms"),
             if Field(j, "payload").Some? then Field(j, "payload").value else Null)
  }

  /** Why a tree is not an envelope; None if it is one. */
  ghost function EnvelopeError<E>(codec: Codec<E>, j: Json): Option<ErrorCode> {
    First(Unless(j.Obj?),
    First(FieldError(j, "schema_version", Whole),
    First(if WholeAt(j, "schema_version") % 0x1_0000_0000 == 0 then None else Some(UnsupportedSchema),
    First(FieldError(j, "event_id", Text),
    First(FieldError(j, "event_type", Text),
    First(FieldError(j, codec.idKey, Text),
    First(FieldError(j, "source_id", Text),
    First(FieldError(j, "sequence", Natural),
    First(FieldError(j, "occurred_at_ms", Whole),
    First(FieldError(j, "payload", Object),
    ErrorOf(codec.decode(EnvelopeAt(codec.idKey, j)))))))))))))
  }

  lemma EnvelopeErrors<E>(codec: Codec<E>, j: Json)
    ensures ErrorOf(ParseEnvelope(codec, j)) == EnvelopeError(codec, j)
  {
    hide Wrap32, Round;
    ZeroVersion(WholeAt(j, "schema_version"));
  }

  ghost function MetadataError(j: Json, key: string, kind: Kind): Option<ErrorCode> {
    if FieldError(j, key, kind).Some? then Some(ParseError) else None
  }

  /** Why a line is not a record; None if it is one. */
  ghost function RecordError<E>(codec: Codec<E>, line: Json): Option<ErrorCode> {
    if Field(line, "event").None? || Field(line, "metadata").None? then Some(ParseError)
    else
      var metadata := Field(line, "metadata").value;
      First(EnvelopeError(codec, Field(line, "event").value),
      First(if metadata.Obj? then None else Some(ParseError),
      First(MetadataError(metadata, "received_at_ms", Whole),
      First(MetadataError(metadata, "accepted_at_ms", Whole),
      MetadataError(metadata, "acceptance_sequence", Natural)))))
  }

  lemma RecordErrors<E>(codec: Codec<E>, line: Json)
    ensures ErrorOf(ParseRecord(codec, line)) == RecordError(codec, line)
  {
    hide ParseEnvelope, EnvelopeError;
    if Field(line, "event").Some? {
      EnvelopeErrors(codec, Field(line, "event").value);
    }
  }
}
