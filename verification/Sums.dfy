/** Sums over finite sets of keys, and multisets of sequences. */
module Sums {

  /** The sum of f over the keys. */
  ghost function Total(keys: set<string>, f: string -> int): int
    decreases |keys|
  {
    if keys == {} then 0
    else
      var k :| k in keys;
      f(k) + Total(keys - {k}, f)
  }

  /** The sum does not depend on the order in which keys are taken out. */
  lemma {:induction false} TotalWithout(keys: set<string>, f: string -> int, k: string)
    requires k in keys
    ensures Total(keys, f) == f(k) + Total(keys - {k}, f)
    decreases |keys|
  {
    var j :| j in keys && Total(keys, f) == f(j) + Total(keys - {j}, f);
    if j != k {
      TotalWithout(keys - {j}, f, k);
      TotalWithout(keys - {k}, f, j);
      assert keys - {j} - {k} == keys - {k} - {j};
    }
  }

  lemma {:induction false} TotalSame(keys: set<string>, f: string -> int, g: string -> int)
    requires forall k | k in keys :: f(k) == g(k)
    ensures Total(keys, f) == Total(keys, g)
    decreases |keys|
  {
    if keys != {} {
      var k :| k in keys;
      TotalWithout(keys, f, k);
      TotalWithout(keys, g, k);
      TotalSame(keys - {k}, f, g);
    }
  }

  /** The value of one key changes, or one key is new. */
  lemma TotalChange(keys: set<string>, f: string -> int, g: string -> int, k: string)
    requires forall x | x in keys && x != k :: f(x) == g(x)
    ensures Total(keys + {k}, g) == Total(keys, f) + g(k) - (if k in keys then f(k) else 0)
  {
    TotalWithout(keys + {k}, g, k);
    assert keys + {k} - {k} == keys - {k};
    TotalSame(keys - {k}, f, g);
    if k in keys {
      TotalWithout(keys, f, k);
    } else {
      assert keys - {k} == keys;
    }
  }

  lemma {:induction false} TotalMonotone(keys: set<string>, f: string -> int, g: string -> int)
    requires forall k | k in keys :: f(k) <= g(k)
    ensures Total(keys, f) <= Total(keys, g)
    decreases |keys|
  {
    if keys != {} {
      var k :| k in keys;
      TotalWithout(keys, f, k);
      TotalWithout(keys, g, k);
      TotalMonotone(keys - {k}, f, g);
    }
  }

  lemma {:induction false} TotalZero(keys: set<string>, f: string -> int)
    requires forall k | k in keys :: f(k) == 0
    ensures Total(keys, f) == 0
    decreases |keys|
  {
    if keys != {} {
      var k :| k in keys;
      TotalWithout(keys, f, k);
      TotalZero(keys - {k}, f);
    }
  }

  /** Taking one element out of a sequence takes one occurrence out of its multiset. */
  lemma TakenOut<T>(a: seq<T>, i: nat)
    requires i < |a|
    ensures multiset(a[..i] + a[i + 1..]) == multiset(a) - multiset{a[i]}
  {
    assert a == a[..i] + [a[i]] + a[i + 1..];
  }

  lemma TailTaken<T>(a: seq<T>)
    requires a != []
    ensures multiset(a[1..]) == multiset(a) - multiset{a[0]}
  {
    assert a == [a[0]] + a[1..];
  }
}
