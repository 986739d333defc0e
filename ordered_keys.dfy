/**
 * The iteration order of a JavaScript `Map` with integer keys.
 *
 * A `Map` remembers the order in which its keys were first `set`: `set` on a
 * new key appends it, `set` on a present key keeps its place, and `delete`
 * drops it. The store models each `Map` as a Dafny `map` together with a
 * `seq<int>` of its keys in that order; this module holds the operations on
 * that key sequence and the facts about it.
 */
module OrderedKeys {

  /** The keys are listed in strictly ascending order (hence without repeats). */
  predicate Increasing(s: seq<int>) {
    forall i, j :: 0 <= i < j < |s| ==> s[i] < s[j]
  }

  /** `order` lists exactly the keys in `keys`, in ascending order. */
  ghost predicate Enumerates(order: seq<int>, keys: set<int>) {
    Increasing(order) && forall k :: k in order <==> k in keys
  }

  /** The key order after `Map.set(k, _)` on a map whose keys are `keys`. */
  function SetOrder(order: seq<int>, keys: set<int>, k: int): seq<int> {
    if k in keys then order else order + [k]
  }

  /** The keys of `s` that satisfy `keep`, in their original order. */
  function Filter(s: seq<int>, keep: int -> bool): (r: seq<int>)
    ensures forall x :: x in r <==> x in s && keep(x)
    ensures Increasing(s) ==> Increasing(r)
    ensures (forall x :: x in s ==> keep(x)) ==> r == s
  {
    if s == [] then []
    else
      var rest := Filter(s[1..], keep);
      if keep(s[0]) then
        assert Increasing(s) ==> Increasing([s[0]] + rest) by {
          if Increasing(s) {
            forall y | y in rest ensures s[0] < y {
              var i :| 0 <= i < |s[1..]| && s[1..][i] == y;
              assert s[i + 1] == y;
            }
            PrependBelow(s[0], rest);
          }
        }
        [s[0]] + rest
      else rest
  }

  lemma PrependBelow(x: int, s: seq<int>)
    requires Increasing(s) && forall y :: y in s ==> x < y
    ensures Increasing([x] + s)
  {
    var r := [x] + s;
    forall i, j | 0 <= i < j < |r| ensures r[i] < r[j] {
      assert r[j] == s[j - 1] && s[j - 1] in s;
    }
  }

  /** The key order after `Map.delete(k)`. */
  function DeleteOrder(order: seq<int>, k: int): (r: seq<int>)
    ensures forall x :: x in r <==> x in order && x != k
    ensures Increasing(order) ==> Increasing(r)
  {
    Filter(order, x => x != k)
  }

  /** Appending a key above every listed key keeps the order ascending. */
  lemma {:induction false} AppendAbove(order: seq<int>, keys: set<int>, k: int)
    requires Enumerates(order, keys)
    requires forall x :: x in keys ==> x < k
    ensures Enumerates(order + [k], keys + {k})
  {
    var r := order + [k];
    forall i, j | 0 <= i < j < |r| ensures r[i] < r[j] {
      if j == |order| {
        assert r[i] == order[i] && order[i] in keys;
      }
    }
  }

  /** Dropping the smallest key of a listing lists the remaining keys. */
  lemma EnumerationTail(order: seq<int>, keys: set<int>)
    requires Enumerates(order, keys) && order != []
    ensures order[0] in keys && Enumerates(order[1..], keys - {order[0]})
  {
    assert order[0] in order;
    forall k ensures k in order[1..] <==> k in keys - {order[0]} {
      if k in order[1..] {
        var i :| 1 <= i < |order| && order[i] == k;
        assert order[0] < order[i];
      }
      if k in order && k != order[0] {
        var i :| 0 <= i < |order| && order[i] == k;
        assert order[1..][i - 1] == k;
      }
    }
  }

  /** An ascending listing of a set of keys is unique: it is determined by the keys alone. */
  lemma {:induction false} EnumerationUnique(a: seq<int>, b: seq<int>, keys: set<int>)
    requires Enumerates(a, keys) && Enumerates(b, keys)
    ensures a == b
    decreases |a|
  {
    assert a != [] ==> a[0] in a && a[0] in b;
    assert b != [] ==> b[0] in b && b[0] in a;
    if a != [] && b != [] {
      assert a[0] == b[0] by {
        var i :| 0 <= i < |a| && a[i] == b[0];
        var j :| 0 <= j < |b| && b[j] == a[0];
        assert a[0] <= a[i];
        assert b[0] <= b[j];
      }
      EnumerationTail(a, keys);
      EnumerationTail(b, keys);
      EnumerationUnique(a[1..], b[1..], keys - {a[0]});
      assert a == [a[0]] + a[1..];
      assert b == [b[0]] + b[1..];
    }
  }

  /** An ascending listing of a set of keys has one entry per key. */
  lemma {:induction false} EnumerationSize(order: seq<int>, keys: set<int>)
    requires Enumerates(order, keys)
    ensures |order| == |keys|
    decreases |order|
  {
    if order == [] {
      assert forall k :: k in keys ==> k in order;
      assert keys == {};
    } else {
      EnumerationTail(order, keys);
      EnumerationSize(order[1..], keys - {order[0]});
    }
  }
}
