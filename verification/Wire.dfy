/** JSON trees, event envelopes, log records, and the field readers of both protocols. */
module Wire {
  import opened Basics

  /** A parsed JSON document. `Int` is a number written without fraction, `Num` one written with it. */
  datatype Json =
    | Null
    | Bool(b: bool)
    | Int(n: int)
    | Num(x: real)
    | Str(s: string)
    | Arr(items: seq<Json>)
    | Obj(fields: map<string, Json>)

  /**
   * The envelope of a battle or room event. `subject` is its `battle_id` or `room_id`.
   * Two envelopes have the same canonical JSON exactly when they are equal.
   */
  datatype Envelope = Envelope(
    schemaVersion: Int32,
    eventId: string,
    eventType: string,
    subject: string,
    sourceId: string,
    sequence: nat,
    occurredAtMs: int,
    payload: Json)

  /** One line of an event log: an accepted envelope and when and as which number it was accepted. */
  datatype Record = Record(envelope: Envelope, receivedAtMs: int, acceptedAtMs: int, acceptance: nat)

  /** How a domain names its subject in JSON, and how it reads a domain event out of an envelope. */
  datatype Codec<E> = Codec(idKey: string, decode: Envelope -> Result<E>)

  const SCHEMA_VERSION: Int32 := 0

  // ---- field readers ------------------------------------------------------------------------

  function Field(j: Json, key: string): Option<Json> {
    if j.Obj? && key in j.fields then Some(j.fields[key]) else None
  }

  function RequiredField(j: Json, key: string): Result<Json> {
    match Field(j, key)
    case None => Err(MissingField)
    case Some(v) => Ok(v)
  }

  function RequiredString(j: Json, key: string): (r: Result<string>)
    ensures r.Ok? ==> r.value != ""
  {
    var v :- RequiredField(j, key);
    if v.Str? && v.s != "" then Ok(v.s) else Err(InvalidPayload)
  }

  /** Missing and null both read as the empty string. */
  function OptionalString(j: Json, key: string): Result<string> {
    match Field(j, key)
    case None => Ok("")
    case Some(Null) => Ok("")
    case Some(Str(s)) => Ok(s)
    case Some(_) => Err(InvalidPayload)
  }

  /** Reads a whole number of any size into a 32-bit integer, keeping its low 32 bits. */
  function RequiredInt(j: Json, key: string): Result<Int32> {
    var v :- RequiredField(j, key);
    if v.Int? then Ok(Wrap32(v.n)) else Err(InvalidPayload)
  }

  function OptionalInt(j: Json, key: string): Result<Option<Int32>> {
    match Field(j, key)
    case None => Ok(None)
    case Some(Null) => Ok(None)
    case Some(Int(n)) => Ok(Some(Wrap32(n)))
    case Some(_) => Err(InvalidPayload)
  }

  function RequiredI64(j: Json, key: string): Result<int> {
    var v :- RequiredField(j, key);
    if v.Int? then Ok(v.n) else Err(InvalidPayload)
  }

  function RequiredU64(j: Json, key: string): Result<nat> {
    var v :- RequiredField(j, key);
    if v.Int? && v.n >= 0 then Ok(v.n) else Err(InvalidPayload)
  }

  function RequiredU32(j: Json, key: string): Result<UInt32> {
    var n :- RequiredU64(j, key);
    if n < TWO_32 then Ok(n) else Err(InvalidPayload)
  }

  function RequiredBool(j: Json, key: string): Result<bool> {
    var v :- RequiredField(j, key);
    if v.Bool? then Ok(v.b) else Err(InvalidPayload)
  }

  function RequiredNumber(j: Json, key: string): Result<real> {
    var v :- RequiredField(j, key);
    match v
    case Int(n) => Ok(n as real)
    case Num(x) => Ok(x)
    case _ => Err(InvalidPayload)
  }

  /** `std::round`: to the nearest integer, halves away from zero. */
  function Round(x: real): (r: int)
    ensures -0.5 <= x - r as real <= 0.5
    ensures x - r as real == 0.5 ==> x < 0.0
    ensures x - r as real == -0.5 ==> x > 0.0
  {
    if x >= 0.0 then (x + 0.5).Floor else -((-x + 0.5).Floor)
  }

  function RequiredRoundedInt(j: Json, key: string): Result<Int32> {
    var x :- RequiredNumber(j, key);
    var r := Round(x);
    if -TWO_31 <= r < TWO_31 then Ok(r) else Err(InvalidPayload)
  }

  // ---- envelopes ----------------------------------------------------------------------------

  function EnvelopeJson(idKey: string, e: Envelope): Json {
    Obj(map[
          "schema_version" := Int(e.schemaVersion),
          "event_id" := Str(e.eventId),
          "event_type" := Str(e.eventType),
          idKey := Str(e.subject),
          "source_id" := Str(e.sourceId),
          "sequence" := Int(e.sequence),
          "occurred_at_ms" := Int(e.occurredAtMs),
          "payload" := e.payload])
  }

  function ParseEnvelope<E>(codec: Codec<E>, j: Json): Result<Envelope> {
    var _ :- Need(j.Obj?, InvalidPayload);
    var schema :- RequiredInt(j, "schema_version");
    var _ :- Need(schema == SCHEMA_VERSION, UnsupportedSchema);
    var eventId :- RequiredString(j, "event_id");
    var eventType :- RequiredString(j, "event_type");
    var subject :- RequiredString(j, codec.idKey);
    var sourceId :- RequiredString(j, "source_id");
    var sequence :- RequiredU64(j, "sequence");
    var occurredAt :- RequiredI64(j, "occurred_at_ms");
    var payload :- RequiredField(j, "payload");
    var _ :- Need(payload.Obj?, InvalidPayload);
    var envelope := Envelope(schema, eventId, eventType, subject, sourceId, sequence, occurredAt, payload);
    var _ :- codec.decode(envelope);
    Ok(envelope)
  }

  /** What an envelope must satisfy besides being a decodable event for its stored form to be readable. */
  predicate WellFormed(e: Envelope) {
    && e.schemaVersion == SCHEMA_VERSION
    && e.eventId != "" && e.eventType != "" && e.subject != "" && e.sourceId != ""
    && e.payload.Obj?
  }

  /** The subject's key is none of the other keys of an envelope. */
  predicate ProperIdKey(idKey: string) {
    idKey !in {"schema_version", "event_id", "event_type", "source_id", "sequence", "occurred_at_ms", "payload"}
  }

  /** A stored envelope is readable exactly when it is well formed and decodes; it then reads back as itself. */
  lemma EnvelopeRoundTrip<E>(codec: Codec<E>, e: Envelope)
    requires ProperIdKey(codec.idKey)
    ensures ParseEnvelope(codec, EnvelopeJson(codec.idKey, e)).Ok? <==> WellFormed(e) && codec.decode(e).Ok?
    ensures WellFormed(e) && codec.decode(e).Ok? ==> ParseEnvelope(codec, EnvelopeJson(codec.idKey, e)) == Ok(e)
  {
    var j := EnvelopeJson(codec.idKey, e);
    assert RequiredInt(j, "schema_version") == Ok(e.schemaVersion);
    assert Field(j, "event_id") == Some(Str(e.eventId));
    assert Field(j, "event_type") == Some(Str(e.eventType));
    assert Field(j, codec.idKey) == Some(Str(e.subject));
    assert Field(j, "source_id") == Some(Str(e.sourceId));
    assert RequiredU64(j, "sequence") == Ok(e.sequence);
    assert RequiredI64(j, "occurred_at_ms") == Ok(e.occurredAtMs);
    assert RequiredField(j, "payload") == Ok(e.payload);
  }

  /** Parsing accepts only well-formed decodable envelopes, and what it accepts can be stored and read again. */
  lemma ParsedEnvelopeIsStorable<E>(codec: Codec<E>, j: Json)
    requires ProperIdKey(codec.idKey)
    requires ParseEnvelope(codec, j).Ok?
    ensures var e := ParseEnvelope(codec, j).value;
            && WellFormed(e) && codec.decode(e).Ok?
            && ParseEnvelope(codec, EnvelopeJson(codec.idKey, e)) == Ok(e)
  {
    EnvelopeRoundTrip(codec, ParseEnvelope(codec, j).value);
  }

  /** The tree carries the envelope, field by field, in version 0. */
  ghost predicate CarriesEnvelope(idKey: string, j: Json, e: Envelope) {
    && j.Obj?
    && e.schemaVersion == 0 && (exists n :: Field(j, "schema_version") == Some(Int(n)) && n % 0x1_0000_0000 == 0)
    && e.eventId != "" && Field(j, "event_id") == Some(Str(e.eventId))
    && e.eventType != "" && Field(j, "event_type") == Some(Str(e.eventType))
    && e.subject != "" && Field(j, idKey) == Some(Str(e.subject))
    && e.sourceId != "" && Field(j, "source_id") == Some(Str(e.sourceId))
    && Field(j, "sequence") == Some(Int(e.sequence))
    && Field(j, "occurred_at_ms") == Some(Int(e.occurredAtMs))
    && e.payload.Obj? && Field(j, "payload") == Some(e.payload)
  }

  /** Parsing gives e exactly when the tree carries e and e decodes; every other tree is refused. */
  lemma ParsedExactly<E>(codec: Codec<E>, j: Json, e: Envelope)
    ensures ParseEnvelope(codec, j) == Ok(e) <==> CarriesEnvelope(codec.idKey, j, e) && codec.decode(e).Ok?
  {
    hide Wrap32;
    if Field(j, "schema_version").Some? && Field(j, "schema_version").value.Int? {
      ZeroVersion(Field(j, "schema_version").value.n);
    }
  }

  lemma ZeroVersion(n: int)
    ensures Wrap32(n) == SCHEMA_VERSION <==> n % 0x1_0000_0000 == 0
  {
  }

  // ---- records ------------------------------------------------------------------------------

  function RecordJson(idKey: string, r: Record): Json {
    Obj(map[
          "event" := EnvelopeJson(idKey, r.envelope),
          "metadata" := Obj(map[
                              "received_at_ms" := Int(r.receivedAtMs),
                              "accepted_at_ms" := Int(r.acceptedAtMs),
                              "acceptance_sequence" := Int(r.acceptance)])])
  }

  function MetadataI64(j: Json, key: string): Result<int> {
    match Field(j, key)
    case Some(Int(n)) => Ok(n)
    case _ => Err(ParseError)
  }

  function MetadataU64(j: Json, key: string): Result<nat> {
    match Field(j, key)
    case Some(Int(n)) => if n >= 0 then Ok(n) else Err(ParseError)
    case _ => Err(ParseError)
  }

  function ParseRecord<E>(codec: Codec<E>, line: Json): Result<Record> {
    var _ :- Need(Field(line, "event").Some? && Field(line, "metadata").Some?, ParseError);
    var envelope :- ParseEnvelope(codec, Field(line, "event").value);
    var metadata := Field(line, "metadata").value;
    var _ :- Need(metadata.Obj?, ParseError);
    var receivedAt :- MetadataI64(metadata, "received_at_ms");
    var acceptedAt :- MetadataI64(metadata, "accepted_at_ms");
    var acceptance :- MetadataU64(metadata, "acceptance_sequence");
    Ok(Record(envelope, receivedAt, acceptedAt, acceptance))
  }

  /** A log line is readable exactly when its envelope is; it then reads back as the record that was written. */
  lemma RecordRoundTrip<E>(codec: Codec<E>, r: Record)
    requires ProperIdKey(codec.idKey)
    ensures ParseRecord(codec, RecordJson(codec.idKey, r)).Ok?
       <==> WellFormed(r.envelope) && codec.decode(r.envelope).Ok?
    ensures ParseRecord(codec, RecordJson(codec.idKey, r)).Ok?
        ==> ParseRecord(codec, RecordJson(codec.idKey, r)) == Ok(r)
  {
    hide ParseEnvelope, EnvelopeJson, WellFormed;
    EnvelopeRoundTrip(codec, r.envelope);
  }

  /** The line carries the record: its envelope, its two times, and its number. */
  ghost predicate CarriesRecord(idKey: string, line: Json, r: Record) {
    && Field(line, "event").Some? && CarriesEnvelope(idKey, Field(line, "event").value, r.envelope)
    && Field(line, "metadata").Some?
    && var metadata := Field(line, "metadata").value;
       && Field(metadata, "received_at_ms") == Some(Int(r.receivedAtMs))
       && Field(metadata, "accepted_at_ms") == Some(Int(r.acceptedAtMs))
       && Field(metadata, "acceptance_sequence") == Some(Int(r.acceptance))
  }

  /** A line reads as r exactly when it carries r and the envelope decodes. */
  lemma RecordParsedExactly<E>(codec: Codec<E>, line: Json, r: Record)
    ensures ParseRecord(codec, line) == Ok(r)
       <==> CarriesRecord(codec.idKey, line, r) && codec.decode(r.envelope).Ok?
  {
    hide ParseEnvelope, CarriesEnvelope;
    if Field(line, "event").Some? {
      ParsedExactly(codec, Field(line, "event").value, r.envelope);
    }
  }
}
