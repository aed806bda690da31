/**
 * The event-sourced runtime as a state machine, for any domain: the battle and the room runtime are its two
 * instances. A world is the live state of the process together with what is on disk and what was published.
 */
module EventSourcing {
  import opened Basics
  import opened Ordering
  import opened Wire

  /** A domain: how its events are encoded, its initial state, and what an event does. */
  datatype Rules<!S, !E> = Rules(codec: Codec<E>, empty: S, apply: (S, E) -> Result<S>)

  /** The live state of a runtime. */
  datatype Runtime<S> = Runtime(
    states: map<string, S>,
    accepted: map<string, Envelope>,
    latest: map<string, nat>,
    acceptance: nat)

  datatype Publication<S> = Publication(envelope: Envelope, snapshot: S)

  /**
   * live: the process; shards: the log files, one for each subject; log: all accepted records in order of
   * acceptance; published: everything handed to the update sink.
   */
  datatype World<S> = World(
    live: Runtime<S>,
    shards: map<string, seq<Json>>,
    log: seq<Record>,
    published: seq<Publication<S>>)

  datatype Status = Accepted | Duplicate | Rejected | StorageFailed

  datatype Reply<S> = Reply(status: Status, snapshot: S, error: Option<ErrorCode>)

  // ---- the live state -----------------------------------------------------------------------

  function EmptyRuntime<S>(): Runtime<S> {
    Runtime(map[], map[], map[], 0)
  }

  function StateOf<S, E>(rules: Rules<S, E>, states: map<string, S>, id: string): S {
    if id in states then states[id] else rules.empty
  }

  /** What an envelope makes of the state of its subject. */
  function ApplyToState<S, E>(rules: Rules<S, E>, states: map<string, S>, envelope: Envelope): Result<S> {
    var event :- rules.codec.decode(envelope);
    rules.apply(StateOf(rules, states, envelope.subject), event)
  }

  /** The bookkeeping for one record whose subject ends in state s. */
  function Absorb<S>(live: Runtime<S>, r: Record, s: S): Runtime<S> {
    var e := r.envelope;
    Runtime(live.states[e.subject := s], live.accepted[e.eventId := e], live.latest[e.sourceId := e.sequence],
            Max(live.acceptance, r.acceptance))
  }

  datatype Replayed<S> = Replayed(live: Runtime<S>, error: Option<ErrorCode>)

  /** Replay from scratch; it stops at the first record that does not apply. */
  function Replay<S, E>(rules: Rules<S, E>, records: seq<Record>): Replayed<S> {
    if records == [] then Replayed(EmptyRuntime(), None)
    else
      var before, r := Replay(rules, records[..|records| - 1]), records[|records| - 1];
      if before.error.Some? then before
      else match ApplyToState(rules, before.live.states, r.envelope)
        case Err(c) => Replayed(before.live, Some(c))
        case Ok(s) => Replayed(Absorb(before.live, r, s), None)
  }

  datatype Verdict<S> = Admit(after: S) | Seen | Refuse(error: ErrorCode)

  /** Duplicates first, then stale sequences, then the rules of the domain. */
  function Judge<S, E>(rules: Rules<S, E>, live: Runtime<S>, e: Envelope): Verdict<S> {
    if e.eventId in live.accepted then
      if live.accepted[e.eventId] == e then Seen else Refuse(Conflict)
    else if e.sourceId in live.latest && e.sequence <= live.latest[e.sourceId] then
      Refuse(Conflict)
    else match ApplyToState(rules, live.states, e)
      case Err(c) => Refuse(c)
      case Ok(s) => Admit(s)
  }

  // ---- the disk -----------------------------------------------------------------------------

  function Shard(shards: map<string, seq<Json>>, id: string): seq<Json> {
    if id in shards then shards[id] else []
  }

  /** How records are written to and read from log lines. */
  function Printer(idKey: string): Record -> Json {
    (r: Record) => RecordJson(idKey, r)
  }

  function Parser<E>(codec: Codec<E>): Json -> Result<Record> {
    (line: Json) => ParseRecord(codec, line)
  }

  function Appended(write: Record -> Json, shards: map<string, seq<Json>>, r: Record): map<string, seq<Json>> {
    shards[r.envelope.subject := Shard(shards, r.envelope.subject) + [write(r)]]
  }

  /** All lines of the named files, file by file. */
  function Lines(shards: map<string, seq<Json>>, files: seq<string>): seq<Json> {
    if files == [] then []
    else Lines(shards, files[..|files| - 1]) + Shard(shards, files[|files| - 1])
  }

  function ParseLines(parse: Json -> Result<Record>, lines: seq<Json>): Result<seq<Record>> {
    if lines == [] then Ok([])
    else
      var before :- ParseLines(parse, lines[..|lines| - 1]);
      var last :- parse(lines[|lines| - 1]);
      Ok(before + [last])
  }

  predicate SortedByAcceptance(records: seq<Record>) {
    forall i, j | 0 <= i < j < |records| :: records[i].acceptance <= records[j].acceptance
  }

  function InsertByAcceptance(records: seq<Record>, r: Record): (sorted: seq<Record>)
    requires SortedByAcceptance(records)
    ensures |sorted| == |records| + 1
    ensures SortedByAcceptance(sorted)
    ensures multiset(sorted) == multiset(records) + multiset{r}
    ensures sorted[|records|] == r || (records != [] && sorted[|records|] == records[|records| - 1])
  {
    if records == [] || records[|records| - 1].acceptance <= r.acceptance then records + [r]
    else
      var front, last := records[..|records| - 1], records[|records| - 1];
      assert records == front + [last];
      InsertByAcceptance(front, r) + [last]
  }

  /** The sort of a read-back. */
  function SortByAcceptance(records: seq<Record>): (sorted: seq<Record>)
    ensures SortedByAcceptance(sorted)
    ensures multiset(sorted) == multiset(records)
  {
    if records == [] then []
    else
      assert records == records[..|records| - 1] + [records[|records| - 1]];
      InsertByAcceptance(SortByAcceptance(records[..|records| - 1]), records[|records| - 1])
  }

  function ReadAll(parse: Json -> Result<Record>, shards: map<string, seq<Json>>): Result<seq<Record>> {
    var records :- ParseLines(parse, Lines(shards, SortedKeys(shards.Keys)));
    Ok(SortByAcceptance(records))
  }

  // ---- steps and runs -----------------------------------------------------------------------

  function EmptyWorld<S>(): World<S> {
    World(EmptyRuntime(), map[], [], [])
  }

  /** One submission; diskOk tells whether the append to the log succeeds. */
  function Submit<S, E>(rules: Rules<S, E>, w: World<S>, e: Envelope, receivedAt: int, acceptedAt: int, diskOk: bool)
    : (World<S>, Reply<S>)
  {
    var before := StateOf(rules, w.live.states, e.subject);
    match Judge(rules, w.live, e)
    case Seen => (w, Reply(Duplicate, before, None))
    case Refuse(c) => (w, Reply(Rejected, before, Some(c)))
    case Admit(after) =>
      if !diskOk then (w, Reply(StorageFailed, before, Some(StorageFailure)))
      else
        var r := Record(e, receivedAt, acceptedAt, w.live.acceptance + 1);
        (World(Absorb(w.live, r, after), Appended(Printer(rules.codec.idKey), w.shards, r), w.log + [r],
               w.published + [Publication(e, after)]),
         Reply(Accepted, after, None))
  }

  /** The process dies and a new one reads the log back; the live state is lost in between. */
  function Restart<S, E>(rules: Rules<S, E>, w: World<S>): Result<World<S>> {
    var records :- ReadAll(Parser(rules.codec), w.shards);
    var replayed := Replay(rules, records);
    if replayed.error.Some? then Err(replayed.error.value) else Ok(w.(live := replayed.live))
  }

  datatype Op =
    | Submission(envelope: Envelope, receivedAt: int, acceptedAt: int, diskOk: bool)
    | Reboot

  datatype Trace<S> = Trace(world: World<S>, replies: seq<Reply<S>>)

  function Step<S, E>(rules: Rules<S, E>, t: Trace<S>, op: Op): Result<Trace<S>> {
    match op
    case Reboot =>
      var w :- Restart(rules, t.world);
      Ok(Trace(w, t.replies))
    case Submission(e, receivedAt, acceptedAt, diskOk) =>
      var (w, reply) := Submit(rules, t.world, e, receivedAt, acceptedAt, diskOk);
      Ok(Trace(w, t.replies + [reply]))
  }

  /** A run from an empty disk; an error if a restart fails. */
  function Run<S, E>(rules: Rules<S, E>, ops: seq<Op>): Result<Trace<S>> {
    if ops == [] then Ok(Trace(EmptyWorld(), []))
    else
      var before :- Run(rules, ops[..|ops| - 1]);
      Step(rules, before, ops[|ops| - 1])
  }
}
