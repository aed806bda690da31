/** Last-writer queries over runs of events. */
module History {
  import opened Basics

  /** What the last event that writes has written; None if no event writes. */
  ghost function Last<E, V>(writes: E -> Option<V>, events: seq<E>): Option<V> {
    if events == [] then None
    else
      var written := writes(events[|events| - 1]);
      if written.Some? then written else Last(writes, events[..|events| - 1])
  }

  lemma LastOneMore<E, V>(writes: E -> Option<V>, events: seq<E>, e: E)
    ensures Last(writes, events + [e]) == if writes(e).Some? then writes(e) else Last(writes, events)
  {
    assert (events + [e])[..|events|] == events;
  }

  /** What Last finds was written by some event, after which nothing was written any more. */
  lemma {:induction false} LastWritten<E, V>(writes: E -> Option<V>, events: seq<E>) returns (i: int)
    ensures if Last(writes, events).None? then i == -1
            else 0 <= i < |events| && writes(events[i]) == Last(writes, events)
    ensures forall j | i < j < |events| :: writes(events[j]).None?
  {
    if events == [] {
      i := -1;
    } else if writes(events[|events| - 1]).Some? {
      i := |events| - 1;
    } else {
      i := LastWritten(writes, events[..|events| - 1]);
    }
  }
}
