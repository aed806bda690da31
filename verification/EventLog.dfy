/** The sharded log: concatenating the shards and sorting by acceptance gives back the order of acceptance. */
module EventLog {
  import opened Basics
  import opened Ordering
  import opened Sums
  import opened Wire
  import opened EventSourcing

  /** The records of one subject, in order. */
  ghost function Own(log: seq<Record>, id: string): seq<Record> {
    if log == [] then []
    else
      var r := log[|log| - 1];
      Own(log[..|log| - 1], id) + (if r.envelope.subject == id then [r] else [])
  }

  ghost function OwnAll(log: seq<Record>, ids: seq<string>): seq<Record> {
    if ids == [] then [] else OwnAll(log, ids[..|ids| - 1]) + Own(log, ids[|ids| - 1])
  }

  ghost function OwnIn(log: seq<Record>, ids: set<string>): seq<Record> {
    if log == [] then []
    else
      var r := log[|log| - 1];
      OwnIn(log[..|log| - 1], ids) + (if r.envelope.subject in ids then [r] else [])
  }

  ghost function Written(write: Record -> Json, records: seq<Record>): seq<Json> {
    if records == [] then [] else Written(write, records[..|records| - 1]) + [write(records[|records| - 1])]
  }

  /** Each shard holds the records of its subject, and there is no other shard. */
  ghost predicate Sharded(write: Record -> Json, shards: map<string, seq<Json>>, log: seq<Record>) {
    && (forall id | id in shards :: shards[id] == Written(write, Own(log, id)))
    && (forall r <- log :: r.envelope.subject in shards)
  }

  /** Acceptance numbers are 1, 2, 3, ... */
  ghost predicate Numbered(log: seq<Record>) {
    forall i | 0 <= i < |log| :: log[i].acceptance == i + 1
  }

  ghost predicate Distinct(ids: seq<string>) {
    forall i, j | 0 <= i < j < |ids| :: ids[i] != ids[j]
  }

  ghost predicate Covers(ids: seq<string>, log: seq<Record>) {
    forall r <- log :: r.envelope.subject in ids
  }

  // ---- nothing is lost or repeated ----------------------------------------------------------

  lemma {:induction false} OwnInOneMore(log: seq<Record>, ids: set<string>, id: string)
    requires id !in ids
    ensures multiset(OwnIn(log, ids + {id})) == multiset(OwnIn(log, ids)) + multiset(Own(log, id))
  {
    if log != [] {
      OwnInOneMore(log[..|log| - 1], ids, id);
    }
  }

  lemma {:induction false} OwnAllCounts(log: seq<Record>, ids: seq<string>)
    requires Distinct(ids)
    ensures multiset(OwnAll(log, ids)) == multiset(OwnIn(log, set id <- ids))
  {
    if ids == [] {
      OwnInNone(log, set id <- ids);
    } else {
      var front, last := ids[..|ids| - 1], ids[|ids| - 1];
      OwnAllCounts(log, front);
      assert ids == front + [last];
      assert (set id <- ids) == (set id <- front) + {last};
      OwnInOneMore(log, (set id <- front), last);
    }
  }

  lemma {:induction false} OwnInNone(log: seq<Record>, ids: set<string>)
    requires ids == {}
    ensures OwnIn(log, ids) == []
  {
    if log != [] {
      OwnInNone(log[..|log| - 1], ids);
    }
  }

  lemma {:induction false} OwnInAll(log: seq<Record>, ids: set<string>)
    requires forall r <- log :: r.envelope.subject in ids
    ensures OwnIn(log, ids) == log
  {
    if log != [] {
      OwnInAll(log[..|log| - 1], ids);
      assert log[|log| - 1] in log;
    }
  }

  /** The first record of a log with increasing numbers is first in every sorted permutation of it. */
  lemma SameHead(log: seq<Record>, sorted: seq<Record>, base: nat)
    requires log != [] && forall i | 0 <= i < |log| :: log[i].acceptance == base + i
    requires SortedByAcceptance(sorted) && multiset(sorted) == multiset(log)
    ensures sorted != [] && sorted[0] == log[0]
  {
    assert log[0] in multiset(sorted);
    var j :| 0 <= j < |sorted| && sorted[j] == log[0];
    assert sorted[0] in multiset(log);
    var i :| 0 <= i < |log| && log[i] == sorted[0];
    assert log[i].acceptance <= log[0].acceptance;
  }

  /** A sorted permutation of a log with increasing numbers is the log. */
  lemma {:induction false} SortedPermutationUnique(log: seq<Record>, sorted: seq<Record>, base: nat)
    requires forall i | 0 <= i < |log| :: log[i].acceptance == base + i
    requires SortedByAcceptance(sorted) && multiset(sorted) == multiset(log)
    ensures sorted == log
    decreases |log|
  {
    if log == [] {
      assert |multiset(sorted)| == 0;
    } else {
      SameHead(log, sorted, base);
      TailTaken(log);
      TailTaken(sorted);
      SortedPermutationUnique(log[1..], sorted[1..], base + 1);
    }
  }

  /**
   * The merge: whatever the order of the files, and whatever sorted permutation the sort picks,
   * merging the shards of a numbered log gives exactly that log.
   */
  lemma ShardedLogMerge(log: seq<Record>, ids: seq<string>, merged: seq<Record>)
    requires Numbered(log) && Distinct(ids) && Covers(ids, log)
    requires SortedByAcceptance(merged) && multiset(merged) == multiset(OwnAll(log, ids))
    ensures merged == log
  {
    OwnAllCounts(log, ids);
    OwnInAll(log, set id <- ids);
    SortedPermutationUnique(log, merged, 1);
  }

  // ---- reading back -------------------------------------------------------------------------

  /** What is written is read as itself or not at all. */
  ghost predicate Inverse(write: Record -> Json, parse: Json -> Result<Record>) {
    forall r :: parse(write(r)).Ok? ==> parse(write(r)) == Ok(r)
  }

  ghost predicate Readable(write: Record -> Json, parse: Json -> Result<Record>, r: Record) {
    parse(write(r)) == Ok(r)
  }

  lemma {:induction false} ParseConcat(parse: Json -> Result<Record>, a: seq<Json>, b: seq<Json>)
    requires ParseLines(parse, a).Ok? && ParseLines(parse, b).Ok?
    ensures ParseLines(parse, a + b) == Ok(ParseLines(parse, a).value + ParseLines(parse, b).value)
  {
    if b == [] {
      assert a + b == a;
      assert ParseLines(parse, a).value + [] == ParseLines(parse, a).value;
    } else {
      var front, last := b[..|b| - 1], b[|b| - 1];
      assert (a + b)[..|a + b| - 1] == a + front && (a + b)[|a + b| - 1] == last;
      ParseConcat(parse, a, front);
      var x, y, z := ParseLines(parse, a).value, ParseLines(parse, front).value, parse(last).value;
      assert x + (y + [z]) == (x + y) + [z];
    }
  }

  lemma {:induction false} ParseWritten(write: Record -> Json, parse: Json -> Result<Record>, records: seq<Record>)
    requires forall r <- records :: Readable(write, parse, r)
    ensures ParseLines(parse, Written(write, records)) == Ok(records)
  {
    if records != [] {
      var front, last := records[..|records| - 1], records[|records| - 1];
      assert records == front + [last];
      ParseWritten(write, parse, front);
      var lines := Written(write, records);
      assert lines[..|lines| - 1] == Written(write, front) && lines[|lines| - 1] == write(last);
      assert Readable(write, parse, last);
    }
  }

  lemma {:induction false} OwnSubset(log: seq<Record>, id: string)
    ensures forall r :: r in Own(log, id) <==> r in log && r.envelope.subject == id
  {
    if log != [] {
      OwnSubset(log[..|log| - 1], id);
      assert log == log[..|log| - 1] + [log[|log| - 1]];
    }
  }

  lemma {:induction false} ParseShards(write: Record -> Json, parse: Json -> Result<Record>,
                                       shards: map<string, seq<Json>>, log: seq<Record>, ids: seq<string>)
    requires Sharded(write, shards, log)
    requires forall id <- ids :: id in shards
    requires forall r <- log :: Readable(write, parse, r)
    ensures ParseLines(parse, Lines(shards, ids)) == Ok(OwnAll(log, ids))
  {
    if ids != [] {
      var front, last := ids[..|ids| - 1], ids[|ids| - 1];
      ParseShards(write, parse, shards, log, front);
      OwnSubset(log, last);
      ParseWritten(write, parse, Own(log, last));
      ParseConcat(parse, Lines(shards, front), Shard(shards, last));
    }
  }

  lemma {:induction false} ParsedLineOk(parse: Json -> Result<Record>, lines: seq<Json>, line: Json)
    requires ParseLines(parse, lines).Ok? && line in lines
    ensures parse(line).Ok?
  {
    if line in lines[..|lines| - 1] {
      ParsedLineOk(parse, lines[..|lines| - 1], line);
    } else {
      assert lines == lines[..|lines| - 1] + [lines[|lines| - 1]];
    }
  }

  lemma {:induction false} LineListed(shards: map<string, seq<Json>>, ids: seq<string>, id: string, line: Json)
    requires id in ids && line in Shard(shards, id)
    ensures line in Lines(shards, ids)
  {
    if id in ids[..|ids| - 1] {
      LineListed(shards, ids[..|ids| - 1], id, line);
    } else {
      assert ids == ids[..|ids| - 1] + [ids[|ids| - 1]];
    }
  }

  lemma {:induction false} LineWritten(write: Record -> Json, records: seq<Record>, r: Record)
    requires r in records
    ensures write(r) in Written(write, records)
  {
    if r in records[..|records| - 1] {
      LineWritten(write, records[..|records| - 1], r);
    } else {
      assert records == records[..|records| - 1] + [records[|records| - 1]];
    }
  }

  /** A log that can be read back at all has only readable records. */
  lemma ReadBackNeedsReadable(write: Record -> Json, parse: Json -> Result<Record>,
                              shards: map<string, seq<Json>>, log: seq<Record>, r: Record)
    requires Inverse(write, parse) && Sharded(write, shards, log) && r in log
    requires ReadAll(parse, shards).Ok?
    ensures Readable(write, parse, r)
  {
    var id, ids := r.envelope.subject, SortedKeys(shards.Keys);
    OwnSubset(log, id);
    LineWritten(write, Own(log, id), r);
    LineListed(shards, ids, id, write(r));
    ParsedLineOk(parse, Lines(shards, ids), write(r));
  }

  /** Reading back the shards of a numbered log gives the log, exactly when every record is readable. */
  lemma ReadBack(write: Record -> Json, parse: Json -> Result<Record>, shards: map<string, seq<Json>>, log: seq<Record>)
    requires Inverse(write, parse) && Sharded(write, shards, log) && Numbered(log)
    ensures ReadAll(parse, shards).Ok? <==> forall r <- log :: Readable(write, parse, r)
    ensures ReadAll(parse, shards).Ok? ==> ReadAll(parse, shards) == Ok(log)
  {
    if ReadAll(parse, shards).Ok? {
      forall r <- log
        ensures Readable(write, parse, r)
      {
        ReadBackNeedsReadable(write, parse, shards, log, r);
      }
    }
    if forall r <- log :: Readable(write, parse, r) {
      var ids := SortedKeys(shards.Keys);
      ParseShards(write, parse, shards, log, ids);
      ShardedLogMerge(log, ids, SortByAcceptance(OwnAll(log, ids)));
    }
  }

  /** Appending a record to its shard keeps the shards those of the log. */
  lemma AppendKeepsShards(write: Record -> Json, shards: map<string, seq<Json>>, log: seq<Record>, r: Record)
    requires Sharded(write, shards, log)
    ensures Sharded(write, Appended(write, shards, r), log + [r])
  {
    var id := r.envelope.subject;
    assert (log + [r])[..|log|] == log;
    OwnSubset(log, id);
    var own := Own(log, id);
    assert Own(log + [r], id) == own + [r];
    assert (own + [r])[..|own|] == own;
    assert Shard(shards, id) == Written(write, own) by {
      assert id !in shards ==> forall r :: r !in own;
      assert own != [] ==> own[0] in own;
    }
    forall k | k in shards && k != id
      ensures Own(log + [r], k) == Own(log, k)
    {
    }
  }
}
