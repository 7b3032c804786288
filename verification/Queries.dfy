/**
  `ORDER BY ... LIMIT n` over rows with distinct sort keys.  A sort key is the
  sequence of ordering columns, the text of the id last; keys are compared
  lexicographically.
 */
module Queries {
  import opened Tables

  predicate Leq(a: seq<int>, b: seq<int>) {
    a == [] || (b != [] && (a[0] < b[0] || (a[0] == b[0] && Leq(a[1..], b[1..]))))
  }

  lemma {:induction false} LeqTotal(a: seq<int>, b: seq<int>)
    ensures Leq(a, b) || Leq(b, a)
  {
    if a != [] && b != [] && a[0] == b[0] { LeqTotal(a[1..], b[1..]); }
  }

  lemma {:induction false} LeqAntisymmetric(a: seq<int>, b: seq<int>)
    requires Leq(a, b) && Leq(b, a)
    ensures a == b
  {
    if a != [] {
      LeqAntisymmetric(a[1..], b[1..]);
      assert a == [a[0]] + a[1..] && b == [b[0]] + b[1..];
    }
  }

  lemma {:induction false} LeqTransitive(a: seq<int>, b: seq<int>, c: seq<int>)
    requires Leq(a, b) && Leq(b, c)
    ensures Leq(a, c)
  {
    if a != [] && a[0] == b[0] == c[0] { LeqTransitive(a[1..], b[1..], c[1..]); }
  }

  function Text(s: string): (codes: seq<int>)
    ensures |codes| == |s|
  {
    seq(|s|, i requires 0 <= i < |s| => s[i] as int)
  }

  lemma TextInjective(a: string, b: string)
    requires Text(a) == Text(b)
    ensures a == b
  {
    assert |a| == |b|;
    forall i | 0 <= i < |a| ensures a[i] == b[i] {
      assert Text(a)[i] == Text(b)[i];
    }
  }

  type Keys = map<Id, seq<int>>

  /** Every key ends in its id after equally many columns, so no two are equal. */
  predicate Sorted(keys: Keys, columns: nat) {
    forall id | id in keys :: |keys[id]| == columns + |id| && keys[id][columns..] == Text(id)
  }

  lemma KeysDistinct(keys: Keys, columns: nat, a: Id, b: Id)
    requires Sorted(keys, columns) && a in keys && b in keys && keys[a] == keys[b]
    ensures a == b
  {
    TextInjective(a, b);
  }

  predicate IsFirst(keys: Keys, x: Id) {
    x in keys && forall y | y in keys :: Leq(keys[x], keys[y])
  }

  lemma {:induction false} FirstExists(keys: Keys)
    requires keys != map[]
    ensures exists x :: IsFirst(keys, x)
    decreases |keys|
  {
    var k :| k in keys;
    var rest := keys - {k};
    if rest == map[] {
      forall y | y in keys ensures Leq(keys[k], keys[y]) {
        assert y !in rest;
        LeqTotal(keys[k], keys[k]);
      }
      assert IsFirst(keys, k);
    } else {
      assert |rest| < |keys| by { assert keys.Keys == rest.Keys + {k}; }
      FirstExists(rest);
      var x :| IsFirst(rest, x);
      LeqTotal(keys[x], keys[k]);
      LeqTotal(keys[k], keys[k]);
      var best := if Leq(keys[x], keys[k]) then x else k;
      forall y | y in keys ensures Leq(keys[best], keys[y]) {
        if y != k {
          assert y in rest;
          if best == k { LeqTransitive(keys[k], keys[x], keys[y]); }
        }
      }
      assert IsFirst(keys, best);
    }
  }

  lemma FirstUnique(keys: Keys, columns: nat, a: Id, b: Id)
    requires Sorted(keys, columns) && IsFirst(keys, a) && IsFirst(keys, b)
    ensures a == b
  {
    LeqAntisymmetric(keys[a], keys[b]);
    KeysDistinct(keys, columns, a, b);
  }

  /** `ORDER BY key LIMIT 1`. */
  function First(keys: Keys, ghost columns: nat): (x: Id)
    requires keys != map[] && Sorted(keys, columns)
    ensures IsFirst(keys, x)
  {
    FirstExists(keys);
    assert forall a, b | IsFirst(keys, a) && IsFirst(keys, b) :: a == b by {
      forall a, b | IsFirst(keys, a) && IsFirst(keys, b) ensures a == b { FirstUnique(keys, columns, a, b); }
    }
    var x :| x in keys && IsFirst(keys, x); x
  }

  lemma SortedWithout(keys: Keys, columns: nat, gone: set<Id>)
    requires Sorted(keys, columns)
    ensures Sorted(keys - gone, columns)
  {
  }

  /** `ORDER BY key LIMIT n`: the rows returned, in order. */
  function Take(keys: Keys, ghost columns: nat, n: nat): (rows: seq<Id>)
    requires Sorted(keys, columns)
    decreases n
  {
    if n == 0 || keys == map[] then []
    else
      var x := First(keys, columns);
      SortedWithout(keys, columns, {x});
      [x] + Take(keys - {x}, columns, n - 1)
  }

  /** The rows taken are distinct rows of the table, as many as the limit allows. */
  lemma {:induction false} TakeRows(keys: Keys, columns: nat, n: nat)
    requires Sorted(keys, columns)
    ensures forall i | 0 <= i < |Take(keys, columns, n)| :: Take(keys, columns, n)[i] in keys
    ensures forall i, j | 0 <= i < j < |Take(keys, columns, n)| ::
              Take(keys, columns, n)[i] != Take(keys, columns, n)[j]
    ensures |Take(keys, columns, n)| == if n <= |keys| then n else |keys|
    decreases n
  {
    if n != 0 && keys != map[] {
      var x := First(keys, columns);
      var rest := keys - {x};
      SortedWithout(keys, columns, {x});
      TakeRows(rest, columns, n - 1);
      assert keys.Keys == rest.Keys + {x};
      var tail := Take(rest, columns, n - 1);
      assert Take(keys, columns, n) == [x] + tail;
      forall i | 0 <= i < |tail| ensures tail[i] != x && tail[i] in keys {
        assert tail[i] in rest;
      }
    }
  }

  /** No row left out sorts before a row taken. */
  lemma {:induction false} TakeFirst(keys: Keys, columns: nat, n: nat, i: nat, y: Id)
    requires Sorted(keys, columns)
    requires i < |Take(keys, columns, n)| && y in keys && y !in Take(keys, columns, n)
    ensures Take(keys, columns, n)[i] in keys && Leq(keys[Take(keys, columns, n)[i]], keys[y])
    decreases n
  {
    var x := First(keys, columns);
    SortedWithout(keys, columns, {x});
    var tail := Take(keys - {x}, columns, n - 1);
    assert Take(keys, columns, n) == [x] + tail;
    if i > 0 {
      assert y != x && y !in tail;
      TakeFirst(keys - {x}, columns, n - 1, i - 1, y);
    }
  }

  /** A row is left out only if the limit is used up. */
  lemma {:induction false} TakeFull(keys: Keys, columns: nat, n: nat, y: Id)
    requires Sorted(keys, columns) && y in keys && y !in Take(keys, columns, n)
    ensures |Take(keys, columns, n)| == n
    decreases n
  {
    if n > 0 {
      var x := First(keys, columns);
      SortedWithout(keys, columns, {x});
      var tail := Take(keys - {x}, columns, n - 1);
      assert Take(keys, columns, n) == [x] + tail;
      assert y != x && y !in tail;
      TakeFull(keys - {x}, columns, n - 1, y);
    }
  }
}
