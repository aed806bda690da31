/** The event store: one file of JSON lines for each subject. */
module Store {
  import opened Basics
  import opened Ordering
  import opened Wire
  import opened EventSourcing

  lemma {:induction false} BadLinesStayBad(parse: Json -> Result<Record>, lines: seq<Json>, n: nat)
    requires n <= |lines| && ParseLines(parse, lines[..n]).Err?
    ensures ParseLines(parse, lines) == ParseLines(parse, lines[..n])
    decreases |lines| - n
  {
    if n < |lines| {
      assert lines[..n + 1][..n] == lines[..n];
      BadLinesStayBad(parse, lines, n + 1);
    } else {
      assert lines[..n] == lines;
    }
  }

  lemma {:induction false} LinesPrefix(shards: map<string, seq<Json>>, files: seq<string>, n: nat)
    requires n <= |files|
    ensures Lines(shards, files[..n]) <= Lines(shards, files)
    decreases |files| - n
  {
    if n < |files| {
      assert files[..n + 1][..n] == files[..n];
      LinesPrefix(shards, files, n + 1);
    } else {
      assert files[..n] == files;
    }
  }

  lemma NothingRead(parse: Json -> Result<Record>, shards: map<string, seq<Json>>, files: seq<string>)
    ensures ParseLines(parse, Lines(shards, files[..0])) == Ok([])
  {
  }

  lemma LinesOneMore(shards: map<string, seq<Json>>, files: seq<string>, i: nat)
    requires i < |files|
    ensures Lines(shards, files[..i + 1]) == Lines(shards, files[..i]) + Shard(shards, files[i])
  {
    assert files[..i + 1][..i] == files[..i];
  }

  lemma BadFilesStayBad(parse: Json -> Result<Record>, shards: map<string, seq<Json>>, files: seq<string>, n: nat)
    requires n <= |files| && ParseLines(parse, Lines(shards, files[..n])).Err?
    ensures ParseLines(parse, Lines(shards, files)) == ParseLines(parse, Lines(shards, files[..n]))
  {
    LinesPrefix(shards, files, n);
    var all, some := Lines(shards, files), Lines(shards, files[..n]);
    assert all[..|some|] == some;
    BadLinesStayBad(parse, all, |some|);
  }

  class JsonlEventStore<E> {
    const codec: Codec<E>
    var shards: map<string, seq<Json>>

    constructor (codec: Codec<E>)
      ensures this.codec == codec && shards == map[]
    {
      this.codec := codec;
      shards := map[];
    }

    /** Appends one line to the file of the subject, or fails and appends nothing. */
    method Append(r: Record, diskOk: bool) returns (error: Option<ErrorCode>)
      modifies this`shards
      ensures error == if diskOk then None else Some(StorageFailure)
      ensures shards == if diskOk then Appended(Printer(codec.idKey), old(shards), r) else old(shards)
    {
      if !diskOk {
        return Some(StorageFailure);
      }
      var id, line := r.envelope.subject, RecordJson(codec.idKey, r);
      if id in shards {
        shards := shards[id := shards[id] + [line]];
      } else {
        shards := shards[id := [line]];
      }
      assert [] + [line] == [line];
      error := None;
    }

    /** Reads the lines of one file, after those of the files read before. */
    method ReadFile(lines: seq<Json>, earlier: seq<Record>, ghost done: seq<Json>) returns (r: Result<seq<Record>>)
      requires ParseLines(Parser(codec), done) == Ok(earlier)
      ensures r == ParseLines(Parser(codec), done + lines)
    {
      hide ParseRecord;
      var records := earlier;
      assert done + lines[..0] == done;
      for k := 0 to |lines|
        invariant ParseLines(Parser(codec), done + lines[..k]) == Ok(records)
      {
        var record := ParseRecord(codec, lines[k]);
        assert (done + lines[..k + 1])[..|done| + k] == done + lines[..k];
        assert (done + lines)[..|done| + k + 1] == done + lines[..k + 1];
        if record.Err? {
          BadLinesStayBad(Parser(codec), done + lines, |done| + k + 1);
          return Err(record.error);
        }
        records := records + [record.value];
      }
      assert lines[..|lines|] == lines;
      r := Ok(records);
    }

    /** Reads every file line by line into one vector and sorts it; the first bad line ends the read. */
    method ReadAll() returns (r: Result<seq<Record>>)
      ensures r == EventSourcing.ReadAll(Parser(codec), shards)
    {
      hide ParseRecord, ParseLines, Lines, SortedKeys, SortByAcceptance;
      var files := SortedKeys(shards.Keys);
      var records: seq<Record> := [];
      NothingRead(Parser(codec), shards, files);
      for i := 0 to |files|
        invariant ParseLines(Parser(codec), Lines(shards, files[..i])) == Ok(records)
      {
        LinesOneMore(shards, files, i);
        var read := ReadFile(shards[files[i]], records, Lines(shards, files[..i]));
        if read.Err? {
          BadFilesStayBad(Parser(codec), shards, files, i + 1);
          return Err(read.error);
        }
        records := read.value;
      }
      assert files[..|files|] == files;
      r := Ok(SortByAcceptance(records));
    }
  }

  /** The receiver of published updates. */
  class UpdateSink<S> {
    var published: seq<Publication<S>>

    constructor ()
      ensures published == []
    {
      published := [];
    }

    method Publish(e: Envelope, snapshot: S)
      modifies this
      ensures published == old(published) + [Publication(e, snapshot)]
    {
      published := published + [Publication(e, snapshot)];
    }
  }
}
