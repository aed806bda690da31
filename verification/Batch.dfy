/** A client that submits a list of envelopes in order and stops at the first that does not pass. */
module Batch {
  import opened Basics
  import opened Wire
  import opened EventSourcing
  import opened Recovery

  /** What the surroundings do during one submission: two clock readings, and whether the disk takes an append. */
  datatype Io = Io(receivedAt: int, acceptedAt: int, diskOk: bool)

  predicate Passed<S>(reply: Reply<S>) {
    reply.status.Accepted? || reply.status.Duplicate?
  }

  function SubmitIo<S, E>(rules: Rules<S, E>, w: World<S>, e: Envelope, io: Io): (World<S>, Reply<S>) {
    Submit(rules, w, e, io.receivedAt, io.acceptedAt, io.diskOk)
  }

  /** The world after the list, and the error that stopped it. */
  function SubmitAll<S, E>(rules: Rules<S, E>, w: World<S>, plan: seq<Envelope>, ios: seq<Io>)
    : (World<S>, Option<ErrorCode>)
    requires |plan| == |ios|
  {
    if plan == [] then (w, None)
    else
      var n := |plan| - 1;
      var (v, error) := SubmitAll(rules, w, plan[..n], ios[..n]);
      if error.Some? then (v, error)
      else
        var (v', reply) := SubmitIo(rules, v, plan[n], ios[n]);
        (v', if Passed(reply) then None else reply.error)
  }

  ghost predicate DisksOk(ios: seq<Io>) {
    forall io <- ios :: io.diskOk
  }

  /** The worlds differ in clock readings at most. */
  ghost predicate Alike<S>(u: World<S>, v: World<S>) {
    && u.live == v.live
    && u.published == v.published
    && |u.log| == |v.log|
    && forall i | 0 <= i < |u.log| ::
      u.log[i].envelope == v.log[i].envelope && u.log[i].acceptance == v.log[i].acceptance
  }

  lemma AllOneMore<S, E>(rules: Rules<S, E>, w: World<S>, plan: seq<Envelope>, ios: seq<Io>, e: Envelope, io: Io)
    requires |plan| == |ios|
    ensures var (v, error) := SubmitAll(rules, w, plan, ios);
            var (v', reply) := SubmitIo(rules, v, e, io);
            SubmitAll(rules, w, plan + [e], ios + [io])
            == if error.Some? then (v, error) else (v', if Passed(reply) then None else reply.error)
  {
    assert (plan + [e])[..|plan|] == plan && (ios + [io])[..|ios|] == ios;
  }

  /** A submission that does not pass changes nothing and reports an error. */
  lemma RefusedUnchanged<S, E>(rules: Rules<S, E>, w: World<S>, e: Envelope, io: Io)
    ensures var (v, reply) := SubmitIo(rules, w, e, io);
            !Passed(reply) ==> v == w && reply.error.Some?
  {
  }

  lemma {:induction false} AllConcat<S, E>(rules: Rules<S, E>, w: World<S>, plan: seq<Envelope>, ios: seq<Io>,
                                           more: seq<Envelope>, moreIos: seq<Io>)
    requires |plan| == |ios| && |more| == |moreIos|
    ensures var (v, error) := SubmitAll(rules, w, plan, ios);
            SubmitAll(rules, w, plan + more, ios + moreIos)
            == if error.Some? then (v, error) else SubmitAll(rules, v, more, moreIos)
  {
    if more == [] {
      assert plan + more == plan && ios + moreIos == ios;
    } else {
      hide SubmitIo;
      var n := |more| - 1;
      AllConcat(rules, w, plan, ios, more[..n], moreIos[..n]);
      assert plan + more == (plan + more[..n]) + [more[n]] && ios + moreIos == (ios + moreIos[..n]) + [moreIos[n]];
      AllOneMore(rules, w, plan + more[..n], ios + moreIos[..n], more[n], moreIos[n]);
    }
  }

  /** Once a prefix of the list has stopped, the rest is not submitted. */
  lemma {:induction false} ErrorPersists<S, E>(rules: Rules<S, E>, w: World<S>, plan: seq<Envelope>,
                                              ios: seq<Io>, n: nat)
    requires n <= |plan| == |ios| && SubmitAll(rules, w, plan[..n], ios[..n]).1.Some?
    ensures SubmitAll(rules, w, plan, ios) == SubmitAll(rules, w, plan[..n], ios[..n])
    decreases |plan| - n
  {
    if n < |plan| {
      assert plan[..n + 1][..n] == plan[..n] && ios[..n + 1][..n] == ios[..n];
      ErrorPersists(rules, w, plan, ios, n + 1);
    } else {
      assert plan[..n] == plan && ios[..n] == ios;
    }
  }

  /** Where the list stopped: everything before has passed, and nothing happened afterwards. */
  lemma {:induction false} StopPoint<S, E>(rules: Rules<S, E>, w: World<S>, plan: seq<Envelope>, ios: seq<Io>)
    returns (k: nat)
    requires |plan| == |ios|
    ensures k <= |plan|
    ensures SubmitAll(rules, w, plan[..k], ios[..k]) == (SubmitAll(rules, w, plan, ios).0, None)
    ensures SubmitAll(rules, w, plan, ios).1.None? ==> k == |plan|
  {
    if plan == [] {
      k := 0;
    } else {
      hide SubmitIo, SubmitAll;
      var n := |plan| - 1;
      var (v, error) := SubmitAll(rules, w, plan[..n], ios[..n]);
      assert plan[..n] + [plan[n]] == plan && ios[..n] + [ios[n]] == ios;
      AllOneMore(rules, w, plan[..n], ios[..n], plan[n], ios[n]);
      if error.Some? {
        k := StopPoint(rules, w, plan[..n], ios[..n]);
        assert plan[..n][..k] == plan[..k] && ios[..n][..k] == ios[..k];
      } else {
        RefusedUnchanged(rules, v, plan[n], ios[n]);
        k := if Passed(SubmitIo(rules, v, plan[n], ios[n]).1) then n + 1 else n;
        assert plan[..n + 1] == plan && ios[..n + 1] == ios;
      }
    }
  }

  // ---- retrying the list --------------------------------------------------------------------

  /** Alike worlds judge alike, and stay alike when the disk works. */
  lemma AlikeSubmit<S, E>(rules: Rules<S, E>, u: World<S>, v: World<S>, e: Envelope, io: Io, io': Io)
    requires Alike(u, v) && io'.diskOk && (io.diskOk || Passed(SubmitIo(rules, u, e, io).1))
    ensures SubmitIo(rules, v, e, io').1 == SubmitIo(rules, u, e, io).1
    ensures Alike(SubmitIo(rules, u, e, io).0, SubmitIo(rules, v, e, io').0)
  {
  }

  lemma {:induction false} AlikeAll<S, E>(rules: Rules<S, E>, u: World<S>, v: World<S>, plan: seq<Envelope>,
                                          ios: seq<Io>, ios': seq<Io>)
    requires |plan| == |ios| == |ios'| && Alike(u, v) && DisksOk(ios')
    requires DisksOk(ios) || SubmitAll(rules, u, plan, ios).1.None?
    ensures SubmitAll(rules, v, plan, ios').1 == SubmitAll(rules, u, plan, ios).1
    ensures Alike(SubmitAll(rules, u, plan, ios).0, SubmitAll(rules, v, plan, ios').0)
  {
    if plan != [] {
      hide SubmitIo, Alike;
      var n := |plan| - 1;
      AlikeAll(rules, u, v, plan[..n], ios[..n], ios'[..n]);
      var u', v' := SubmitAll(rules, u, plan[..n], ios[..n]), SubmitAll(rules, v, plan[..n], ios'[..n]);
      if u'.1.None? {
        if !Passed(SubmitIo(rules, u'.0, plan[n], ios[n]).1) {
          RefusedUnchanged(rules, u'.0, plan[n], ios[n]);
          assert ios[n] in ios;
        }
        AlikeSubmit(rules, u'.0, v'.0, plan[n], ios[n], ios'[n]);
      }
    }
  }

  /** An accepted event stays accepted. */
  lemma AcceptedStays<S, E>(rules: Rules<S, E>, w: World<S>, e: Envelope, io: Io, seen: Envelope)
    requires AlreadyAccepted(w.live, seen)
    ensures AlreadyAccepted(SubmitIo(rules, w, e, io).0.live, seen)
  {
  }

  lemma PassedIsAccepted<S, E>(rules: Rules<S, E>, w: World<S>, e: Envelope, io: Io)
    requires Passed(SubmitIo(rules, w, e, io).1)
    ensures AlreadyAccepted(SubmitIo(rules, w, e, io).0.live, e)
  {
  }

  lemma {:induction false} AllAccepted<S, E>(rules: Rules<S, E>, w: World<S>, plan: seq<Envelope>, ios: seq<Io>)
    requires |plan| == |ios| && SubmitAll(rules, w, plan, ios).1.None?
    ensures forall e <- plan :: AlreadyAccepted(SubmitAll(rules, w, plan, ios).0.live, e)
  {
    if plan != [] {
      hide SubmitIo;
      var n := |plan| - 1;
      var (v, error) := SubmitAll(rules, w, plan[..n], ios[..n]);
      if error.None? {
        AllAccepted(rules, w, plan[..n], ios[..n]);
        RefusedUnchanged(rules, v, plan[n], ios[n]);
        PassedIsAccepted(rules, v, plan[n], ios[n]);
        forall e <- plan
          ensures AlreadyAccepted(SubmitIo(rules, v, plan[n], ios[n]).0.live, e)
        {
          if e != plan[n] {
            assert e in plan[..n];
            AcceptedStays(rules, v, plan[n], ios[n], e);
          }
        }
      }
    }
  }

  /** Submitting accepted events again changes nothing. */
  lemma {:induction false} AllAgain<S, E>(rules: Rules<S, E>, w: World<S>, plan: seq<Envelope>, ios: seq<Io>)
    requires |plan| == |ios|
    requires forall e <- plan :: AlreadyAccepted(w.live, e)
    ensures SubmitAll(rules, w, plan, ios) == (w, None)
  {
    if plan != [] {
      AllAgain(rules, w, plan[..|plan| - 1], ios[..|ios| - 1]);
      assert AlreadyAccepted(w.live, plan[|plan| - 1]);
    }
  }

  /**
   * Resumption: whatever an attempt with a failing disk got done, a second attempt with a working disk ends as one
   * uninterrupted attempt would have ended: same state, same records in the same order, same error.
   */
  lemma Resumable<S, E>(rules: Rules<S, E>, w: World<S>, plan: seq<Envelope>, first: seq<Io>, second: seq<Io>,
                        only: seq<Io>)
    requires |plan| == |first| == |second| == |only| && DisksOk(second) && DisksOk(only)
    ensures var after := SubmitAll(rules, w, plan, first).0;
            && Alike(SubmitAll(rules, w, plan, only).0, SubmitAll(rules, after, plan, second).0)
            && SubmitAll(rules, after, plan, second).1 == SubmitAll(rules, w, plan, only).1
  {
    hide SubmitAll;
    var after := SubmitAll(rules, w, plan, first).0;
    var k := StopPoint(rules, w, plan, first);
    var done, rest := plan[..k], plan[k..];
    assert plan == done + rest;
    assert second == second[..k] + second[k..] && only == only[..k] + only[k..];
    AllAccepted(rules, w, done, first[..k]);
    AllAgain(rules, after, done, second[..k]);
    AllConcat(rules, after, done, second[..k], rest, second[k..]);
    AlikeAll(rules, w, w, done, first[..k], only[..k]);
    AllConcat(rules, w, done, only[..k], rest, only[k..]);
    var clean := SubmitAll(rules, w, done, only[..k]).0;
    AlikeAll(rules, clean, after, rest, only[k..], second[k..]) by {
      assert Alike(after, clean);
      assert Alike(clean, after);
    }
  }

  lemma OneDurable<S, E>(rules: Rules<S, E>, w: World<S>, e: Envelope, io: Io)
    requires Durable(rules, w) && WellFormed(e)
    ensures Durable(rules, SubmitIo(rules, w, e, io).0)
  {
    hide Sound, Submit, WellFormed;
    SubmitSound(rules, w, e, io.receivedAt, io.acceptedAt, io.diskOk);
  }

  /** The invariant of the world is kept by every such list. */
  lemma {:induction false} AllDurable<S, E>(rules: Rules<S, E>, w: World<S>, plan: seq<Envelope>, ios: seq<Io>)
    requires |plan| == |ios| && Durable(rules, w)
    requires forall e <- plan :: WellFormed(e)
    ensures Durable(rules, SubmitAll(rules, w, plan, ios).0)
  {
    hide Durable, SubmitIo, WellFormed;
    if plan != [] {
      var n := |plan| - 1;
      AllDurable(rules, w, plan[..n], ios[..n]);
      assert plan[n] in plan;
      OneDurable(rules, SubmitAll(rules, w, plan[..n], ios[..n]).0, plan[n], ios[n]);
    }
  }

  /** Events accepted since w decode. */
  ghost predicate NewDecode<S, E>(rules: Rules<S, E>, w: World<S>, v: World<S>) {
    forall id | id in v.live.accepted :: id in w.live.accepted || rules.codec.decode(v.live.accepted[id]).Ok?
  }

  lemma SubmitNewDecode<S, E>(rules: Rules<S, E>, w: World<S>, v: World<S>, e: Envelope, io: Io)
    requires NewDecode(rules, w, v)
    ensures NewDecode(rules, w, SubmitIo(rules, v, e, io).0)
  {
  }

  lemma {:induction false} AllNewDecode<S, E>(rules: Rules<S, E>, w: World<S>, plan: seq<Envelope>, ios: seq<Io>)
    requires |plan| == |ios|
    ensures NewDecode(rules, w, SubmitAll(rules, w, plan, ios).0)
  {
    if plan != [] {
      hide SubmitIo, NewDecode;
      var n := |plan| - 1;
      AllNewDecode(rules, w, plan[..n], ios[..n]);
      SubmitNewDecode(rules, w, SubmitAll(rules, w, plan[..n], ios[..n]).0, plan[n], ios[n]);
    }
  }

  /** A list goes through only if each of its events was there before or decodes. */
  lemma PassedDecodes<S, E>(rules: Rules<S, E>, w: World<S>, plan: seq<Envelope>, ios: seq<Io>, e: Envelope)
    requires |plan| == |ios| && SubmitAll(rules, w, plan, ios).1.None? && e in plan
    ensures e.eventId in w.live.accepted || rules.codec.decode(e).Ok?
  {
    hide SubmitAll;
    AllAccepted(rules, w, plan, ios);
    AllNewDecode(rules, w, plan, ios);
    assert AlreadyAccepted(SubmitAll(rules, w, plan, ios).0.live, e);
  }
}
