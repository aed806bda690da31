/** Lexicographic order on strings: the iteration order of `std::map` and of sorted containers. */
module Ordering {

  /** a comes before b, or is equal to it. */
  predicate LexLe(a: string, b: string) {
    a == "" || (b != "" && (a[0] < b[0] || (a[0] == b[0] && LexLe(a[1..], b[1..]))))
  }

  lemma {:induction false} LexTotal(a: string, b: string)
    ensures LexLe(a, b) || LexLe(b, a)
  {
    if a != "" && b != "" && a[0] == b[0] {
      LexTotal(a[1..], b[1..]);
    }
  }

  lemma {:induction false} LexAntisymmetric(a: string, b: string)
    requires LexLe(a, b) && LexLe(b, a)
    ensures a == b
  {
    if a != "" && b != "" {
      LexAntisymmetric(a[1..], b[1..]);
      assert a == [a[0]] + a[1..] && b == [b[0]] + b[1..];
    }
  }

  lemma {:induction false} LexTransitive(a: string, b: string, c: string)
    requires LexLe(a, b) && LexLe(b, c)
    ensures LexLe(a, c)
  {
    if a != "" && a[0] == b[0] == c[0] {
      LexTransitive(a[1..], b[1..], c[1..]);
    }
  }

  /** a and b agree up to position i, where a ends or has the smaller character. */
  predicate DiffersAt(a: string, b: string, i: nat) {
    && i <= |a| && i <= |b| && a[..i] == b[..i]
    && (i == |a| || (i < |b| && a[i] < b[i]))
  }

  /** The order compares the first characters that differ; a prefix comes first. */
  lemma {:induction false} Lexicographic(a: string, b: string)
    ensures LexLe(a, b) <==> exists i: nat :: DiffersAt(a, b, i)
  {
    if a == "" {
      assert DiffersAt(a, b, 0);
    } else if b == "" || a[0] > b[0] {
      assert forall i: nat | 0 < i <= |a| && i <= |b| :: a[..i][0] == a[0] && b[..i][0] == b[0];
    } else if a[0] < b[0] {
      assert DiffersAt(a, b, 0);
    } else {
      Lexicographic(a[1..], b[1..]);
      forall i: nat
        ensures DiffersAt(a[1..], b[1..], i) <==> DiffersAt(a, b, i + 1)
      {
        if i <= |a| - 1 && i <= |b| - 1 {
          assert a[..i + 1] == [a[0]] + a[1..][..i] && b[..i + 1] == [b[0]] + b[1..][..i];
        }
      }
      if LexLe(a[1..], b[1..]) {
        var i: nat :| DiffersAt(a[1..], b[1..], i);
        assert DiffersAt(a, b, i + 1);
      }
      if exists i: nat :: DiffersAt(a, b, i) {
        var i: nat :| DiffersAt(a, b, i);
        assert i != 0;
        assert DiffersAt(a[1..], b[1..], i - 1);
      }
    }
  }

  predicate IsLeast(x: string, s: set<string>) {
    x in s && forall y | y in s :: LexLe(x, y)
  }

  lemma {:induction false} LeastExists(s: set<string>)
    requires s != {}
    ensures exists x :: IsLeast(x, s)
  {
    var y :| y in s;
    if s == {y} {
      LexTotal(y, y);
      assert IsLeast(y, s);
    } else {
      LeastExists(s - {y});
      var x :| IsLeast(x, s - {y});
      LexTotal(x, y);
      LexTotal(y, y);
      if LexLe(x, y) {
        assert IsLeast(x, s);
      } else {
        forall z | z in s
          ensures LexLe(y, z)
        {
          if z != y {
            LexTransitive(y, x, z);
          }
        }
        assert IsLeast(y, s);
      }
    }
  }

  function Least(s: set<string>): (x: string)
    requires s != {}
    ensures IsLeast(x, s)
  {
    LeastExists(s);
    assert forall x, y | IsLeast(x, s) && IsLeast(y, s) :: x == y by {
      forall x, y | IsLeast(x, s) && IsLeast(y, s)
        ensures x == y
      {
        LexAntisymmetric(x, y);
      }
    }
    var x :| x in s && IsLeast(x, s);
    x
  }

  predicate StrictlySorted(xs: seq<string>) {
    forall i, j | 0 <= i < j < |xs| :: LexLe(xs[i], xs[j]) && xs[i] != xs[j]
  }

  /** The keys in the order in which a `std::map` visits them. */
  function SortedKeys(s: set<string>): (keys: seq<string>)
    ensures |keys| == |s|
    ensures forall x :: x in keys <==> x in s
    ensures StrictlySorted(keys)
  {
    if s == {} then []
    else
      var x := Least(s);
      [x] + SortedKeys(s - {x})
  }

  lemma LeastIsFirst(xs: seq<string>, s: set<string>)
    requires StrictlySorted(xs) && s != {} && forall x :: x in xs <==> x in s
    ensures xs != [] && xs[0] == Least(s)
  {
    var x := Least(s);
    assert x in xs;
    var i :| 0 <= i < |xs| && xs[i] == x;
    assert xs[0] in s;
    if i != 0 {
      LexAntisymmetric(xs[0], x);
    }
  }

  lemma TailMembers(xs: seq<string>)
    requires StrictlySorted(xs) && xs != []
    ensures forall y :: y in xs[1..] <==> y in xs && y != xs[0]
  {
    hide LexLe;
    assert xs == [xs[0]] + xs[1..];
    forall y | y in xs[1..]
      ensures y != xs[0]
    {
      var j :| 0 <= j < |xs| - 1 && xs[1..][j] == y;
      assert xs[j + 1] == y;
    }
  }

  lemma BothEmpty(xs: seq<string>, s: set<string>)
    requires forall x :: x in xs <==> x in s
    ensures xs == [] <==> s == {}
  {
    if xs != [] {
      assert xs[0] in xs;
    }
  }

  lemma NothingSorted()
    ensures SortedKeys({}) == []
  {
  }

  lemma SortedKeysFirst(s: set<string>)
    requires s != {}
    ensures SortedKeys(s) == [Least(s)] + SortedKeys(s - {Least(s)})
  {
  }

  /** Sorting and removing duplicates has one outcome. */
  lemma {:induction false} StrictlySortedUnique(xs: seq<string>, s: set<string>)
    requires StrictlySorted(xs)
    requires forall x :: x in xs <==> x in s
    ensures xs == SortedKeys(s)
  {
    hide LexLe, IsLeast, SortedKeys;
    BothEmpty(xs, s);
    if s == {} {
      NothingSorted();
    } else {
      LeastIsFirst(xs, s);
      TailMembers(xs);
      SortedKeysFirst(s);
      StrictlySortedUnique(xs[1..], s - {xs[0]});
      assert xs == [xs[0]] + xs[1..];
    }
  }
}
