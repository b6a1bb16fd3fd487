/**
 * Lists of records identified by a string key, and the array operations the
 * storefront applies to them (`find`, `findIndex`, `filter`, `map`, `reduce`).
 * The key is a parameter so that the cart and wishlist item shapes, keyed by
 * `id` or by `productId`, share one definition.
 */
module Keyed {
  import opened Util

  /** `xs.some(x => key(x) === k)`. */
  predicate HasKey<T>(xs: seq<T>, key: T -> string, k: string)
  {
    exists i :: 0 <= i < |xs| && key(xs[i]) == k
  }

  /** A key occurs in a non-empty list iff it occurs before the last element or is the last element's. */
  lemma HasKeySnoc<T>(xs: seq<T>, key: T -> string, k: string)
    requires xs != []
    ensures HasKey(xs, key, k) <==> HasKey(xs[..|xs| - 1], key, k) || key(xs[|xs| - 1]) == k
  {
    var init := xs[..|xs| - 1];
    if HasKey(xs, key, k) && key(xs[|xs| - 1]) != k {
      var i :| 0 <= i < |xs| && key(xs[i]) == k;
      assert init[i] == xs[i];
    }
    if HasKey(init, key, k) {
      var i :| 0 <= i < |init| && key(init[i]) == k;
      assert xs[i] == init[i];
    }
  }

  /** The first elements of a list with unique keys have unique keys, none equal to the last key. */
  lemma UniqueInit<T>(xs: seq<T>, key: T -> string)
    requires UniqueKeys(xs, key) && xs != []
    ensures UniqueKeys(xs[..|xs| - 1], key)
    ensures !HasKey(xs[..|xs| - 1], key, key(xs[|xs| - 1]))
  {
    var init := xs[..|xs| - 1];
    forall i, j | 0 <= i < j < |init| ensures key(init[i]) != key(init[j]) {
      assert init[i] == xs[i] && init[j] == xs[j];
    }
    forall i | 0 <= i < |init| ensures key(init[i]) != key(xs[|xs| - 1]) {
      assert init[i] == xs[i];
    }
  }

  /** The collection invariant: at most one element per key. */
  predicate UniqueKeys<T>(xs: seq<T>, key: T -> string)
  {
    forall i, j :: 0 <= i < j < |xs| ==> key(xs[i]) != key(xs[j])
  }

  /** The keys of `xs`, in order. */
  function KeysOf<T>(xs: seq<T>, key: T -> string): (ks: seq<string>)
    ensures |ks| == |xs|
    ensures forall i :: 0 <= i < |xs| ==> ks[i] == key(xs[i])
  {
    seq(|xs|, i requires 0 <= i < |xs| => key(xs[i]))
  }

  /** The keys of a concatenation are the concatenated keys. */
  lemma KeysOfAppend<T>(a: seq<T>, b: seq<T>, key: T -> string)
    ensures KeysOf(a + b, key) == KeysOf(a, key) + KeysOf(b, key)
  {
  }

  /** `xs.findIndex(x => key(x) === k)`: the first position holding key `k`, or -1. */
  function IndexOf<T>(xs: seq<T>, key: T -> string, k: string): (r: int)
    ensures -1 <= r < |xs|
    ensures r == -1 <==> !HasKey(xs, key, k)
    ensures r >= 0 ==> key(xs[r]) == k && forall j :: 0 <= j < r ==> key(xs[j]) != k
    decreases |xs|
  {
    if xs == [] then -1
    else if key(xs[0]) == k then 0
    else
      var r := IndexOf(xs[1..], key, k);
      if r == -1 then -1 else r + 1
  }

  /** `xs.find(x => key(x) === k)`: the first element holding key `k`, if any. */
  function FindFirst<T>(xs: seq<T>, key: T -> string, k: string): (r: Option<T>)
    ensures r.None? <==> !HasKey(xs, key, k)
    ensures r.Some? ==> key(r.value) == k && r.value in xs
    ensures r.Some? ==> r.value == xs[IndexOf(xs, key, k)]
  {
    var i := IndexOf(xs, key, k);
    if i == -1 then None else Some(xs[i])
  }

  /** With unique keys, the element `find` returns is the only one with that key. */
  lemma FindFirstUnique<T>(xs: seq<T>, key: T -> string, i: nat)
    requires UniqueKeys(xs, key) && i < |xs|
    ensures FindFirst(xs, key, key(xs[i])) == Some(xs[i])
  {
    assert HasKey(xs, key, key(xs[i]));
    assert IndexOf(xs, key, key(xs[i])) == i;
  }

  /** `xs.filter(x => key(x) !== k)`. */
  function Without<T>(xs: seq<T>, key: T -> string, k: string): (r: seq<T>)
    ensures !HasKey(r, key, k)
    ensures forall x :: x in r ==> x in xs
    ensures |r| <= |xs|
    decreases |xs|
  {
    if xs == [] then []
    else if key(xs[0]) == k then Without(xs[1..], key, k)
    else [xs[0]] + Without(xs[1..], key, k)
  }

  /** Filtering out an absent key changes nothing. */
  lemma {:induction false} WithoutAbsent<T>(xs: seq<T>, key: T -> string, k: string)
    requires !HasKey(xs, key, k)
    ensures Without(xs, key, k) == xs
    decreases |xs|
  {
    if xs != [] {
      assert !HasKey(xs[1..], key, k) by {
        forall i | 0 <= i < |xs[1..]| ensures key(xs[1..][i]) != k {
          assert xs[1..][i] == xs[i + 1];
        }
      }
      WithoutAbsent(xs[1..], key, k);
      assert xs == [xs[0]] + xs[1..];
    }
  }

  /** Removing a key twice is removing it once. */
  lemma WithoutIdempotent<T>(xs: seq<T>, key: T -> string, k: string)
    ensures Without(Without(xs, key, k), key, k) == Without(xs, key, k)
  {
    WithoutAbsent(Without(xs, key, k), key, k);
  }

  /** Filtering keeps exactly the other keys. */
  lemma {:induction false} WithoutHasKey<T>(xs: seq<T>, key: T -> string, k: string, k': string)
    ensures HasKey(Without(xs, key, k), key, k') <==> HasKey(xs, key, k') && k' != k
    decreases |xs|
  {
    if xs != [] {
      WithoutHasKey(xs[1..], key, k, k');
      var rest := Without(xs[1..], key, k);
      if HasKey(xs, key, k') && k' != k {
        var i :| 0 <= i < |xs| && key(xs[i]) == k';
        if i > 0 {
          assert key(xs[1..][i - 1]) == k';
        }
        if key(xs[0]) != k {
          assert ([xs[0]] + rest)[0] == xs[0];
          if i > 0 {
            var j :| 0 <= j < |rest| && key(rest[j]) == k';
            assert ([xs[0]] + rest)[j + 1] == rest[j];
          }
        }
      }
      if HasKey(Without(xs, key, k), key, k') {
        var r := Without(xs, key, k);
        var j :| 0 <= j < |r| && key(r[j]) == k';
        assert r[j] in xs;
      }
    }
  }

  /** Filtering keeps the invariant "one element per key". */
  lemma {:induction false} WithoutUnique<T>(xs: seq<T>, key: T -> string, k: string)
    requires UniqueKeys(xs, key)
    ensures UniqueKeys(Without(xs, key, k), key)
    decreases |xs|
  {
    if xs != [] {
      assert UniqueKeys(xs[1..], key) by {
        forall i, j | 0 <= i < j < |xs[1..]| ensures key(xs[1..][i]) != key(xs[1..][j]) {
          assert xs[1..][i] == xs[i + 1] && xs[1..][j] == xs[j + 1];
        }
      }
      WithoutUnique(xs[1..], key, k);
      if key(xs[0]) != k {
        var rest := Without(xs[1..], key, k);
        var r := [xs[0]] + rest;
        forall i, j | 0 <= i < j < |r| ensures key(r[i]) != key(r[j]) {
          if i == 0 {
            assert r[j] == rest[j - 1] && rest[j - 1] in xs[1..];
            var m :| 0 <= m < |xs[1..]| && xs[1..][m] == rest[j - 1];
            assert xs[1..][m] == xs[m + 1];
          } else {
            assert r[i] == rest[i - 1] && r[j] == rest[j - 1];
          }
        }
      }
    }
  }

  /**
   * With unique keys, filtering out the key of element `i` deletes exactly that
   * element and keeps every other element in its original order.
   */
  lemma {:induction false} WithoutDeletesOne<T>(xs: seq<T>, key: T -> string, i: nat)
    requires UniqueKeys(xs, key) && i < |xs|
    ensures Without(xs, key, key(xs[i])) == xs[..i] + xs[i + 1..]
    decreases |xs|
  {
    var k := key(xs[i]);
    if i == 0 {
      assert !HasKey(xs[1..], key, k) by {
        forall m | 0 <= m < |xs[1..]| ensures key(xs[1..][m]) != k {
          assert xs[1..][m] == xs[m + 1];
        }
      }
      WithoutAbsent(xs[1..], key, k);
    } else {
      var tail := xs[1..];
      assert UniqueKeys(tail, key) by {
        forall a, b | 0 <= a < b < |tail| ensures key(tail[a]) != key(tail[b]) {
          assert tail[a] == xs[a + 1] && tail[b] == xs[b + 1];
        }
      }
      assert tail[i - 1] == xs[i];
      WithoutDeletesOne(tail, key, i - 1);
      assert key(xs[0]) != k;
      assert xs[..i] == [xs[0]] + tail[..i - 1];
      assert xs[i + 1..] == tail[i..];
    }
  }

  /** Appending a record with a fresh key keeps the keys unique. */
  lemma AppendFresh<T>(xs: seq<T>, key: T -> string, x: T)
    requires UniqueKeys(xs, key) && !HasKey(xs, key, key(x))
    ensures UniqueKeys(xs + [x], key)
  {
    var r := xs + [x];
    forall i, j | 0 <= i < j < |r| ensures key(r[i]) != key(r[j]) {
      if j == |xs| {
        assert r[i] == xs[i];
      } else {
        assert r[i] == xs[i] && r[j] == xs[j];
      }
    }
  }

  /** `xs.map(x => key(x) === k ? f(x) : x)`. */
  function Modify<T>(xs: seq<T>, key: T -> string, k: string, f: T -> T): (r: seq<T>)
    ensures |r| == |xs|
    ensures forall i :: 0 <= i < |xs| ==> r[i] == if key(xs[i]) == k then f(xs[i]) else xs[i]
  {
    seq(|xs|, i requires 0 <= i < |xs| => if key(xs[i]) == k then f(xs[i]) else xs[i])
  }

  /** A key-preserving update keeps every key in place, so uniqueness is kept. */
  lemma ModifyKeepsKeys<T>(xs: seq<T>, key: T -> string, k: string, f: T -> T)
    requires forall x :: key(f(x)) == key(x)
    ensures KeysOf(Modify(xs, key, k, f), key) == KeysOf(xs, key)
    ensures UniqueKeys(xs, key) ==> UniqueKeys(Modify(xs, key, k, f), key)
    ensures forall k' :: HasKey(Modify(xs, key, k, f), key, k') <==> HasKey(xs, key, k')
  {
    var r := Modify(xs, key, k, f);
    forall k' ensures HasKey(r, key, k') <==> HasKey(xs, key, k') {
      if HasKey(r, key, k') {
        var i :| 0 <= i < |r| && key(r[i]) == k';
        assert key(xs[i]) == k';
      }
      if HasKey(xs, key, k') {
        var i :| 0 <= i < |xs| && key(xs[i]) == k';
        assert key(r[i]) == k';
      }
    }
  }

  /** With unique keys, a keyed update replaces element `i` and nothing else. */
  lemma ModifyTouchesOne<T>(xs: seq<T>, key: T -> string, i: nat, f: T -> T)
    requires UniqueKeys(xs, key) && i < |xs|
    ensures Modify(xs, key, key(xs[i]), f) == xs[..i] + [f(xs[i])] + xs[i + 1..]
  {
    var r := Modify(xs, key, key(xs[i]), f);
    var s := xs[..i] + [f(xs[i])] + xs[i + 1..];
    assert |r| == |s|;
    forall j | 0 <= j < |r| ensures r[j] == s[j] {
      if j < i {
        assert s[j] == xs[j];
      } else if j > i {
        assert s[j] == xs[j];
      }
    }
  }

  /** `xs.reduce((total, x) => total + val(x), 0)`, folded left to right. */
  function Total<T>(xs: seq<T>, val: T -> int): int
    decreases |xs|
  {
    if xs == [] then 0 else Total(xs[..|xs| - 1], val) + val(xs[|xs| - 1])
  }

  /** Appending one element adds its value to the total. */
  lemma TotalSnoc<T>(xs: seq<T>, x: T, val: T -> int)
    ensures Total(xs + [x], val) == Total(xs, val) + val(x)
  {
    assert (xs + [x])[..|xs|] == xs;
  }

  /** The total of a concatenation is the sum of the totals. */
  lemma {:induction false} TotalAppend<T>(a: seq<T>, b: seq<T>, val: T -> int)
    ensures Total(a + b, val) == Total(a, val) + Total(b, val)
    decreases |b|
  {
    if b == [] {
      assert a + b == a;
    } else {
      var b' := b[..|b| - 1];
      assert (a + b)[..|a + b| - 1] == a + b';
      TotalAppend(a, b', val);
    }
  }

  /** The total around one element is the two totals plus its value. */
  lemma TotalInsert<T>(a: seq<T>, x: T, b: seq<T>, val: T -> int)
    ensures Total(a + [x] + b, val) == Total(a, val) + val(x) + Total(b, val)
  {
    TotalAppend(a + [x], b, val);
    TotalSnoc(a, x, val);
  }

  /** A list is its prefix, the element at `i` and its suffix. */
  lemma SplitAt<T>(xs: seq<T>, i: nat)
    requires i < |xs|
    ensures xs == xs[..i] + [xs[i]] + xs[i + 1..]
  {
    assert xs[..i + 1] == xs[..i] + [xs[i]];
    assert xs == xs[..i + 1] + xs[i + 1..];
  }

  /** The total of a list with one element cut out, as the split at that element. */
  lemma TotalSplit<T>(xs: seq<T>, i: nat, x: T, val: T -> int)
    requires i < |xs|
    ensures Total(xs[..i] + [x] + xs[i + 1..], val) == Total(xs, val) - val(xs[i]) + val(x)
    ensures Total(xs[..i] + xs[i + 1..], val) == Total(xs, val) - val(xs[i])
  {
    var a, b := xs[..i], xs[i + 1..];
    SplitAt(xs, i);
    TotalInsert(a, xs[i], b, val);
    TotalInsert(a, x, b, val);
    TotalAppend(a, b, val);
  }

  /** The elements of `xs` whose key no element of `ys` carries, in their order. */
  function Unmatched<T>(xs: seq<T>, ys: seq<T>, key: T -> string): (r: seq<T>)
    ensures forall x :: x in r ==> x in xs && !HasKey(ys, key, key(x))
    decreases |xs|
  {
    if xs == [] then []
    else
      var x := xs[|xs| - 1];
      Unmatched(xs[..|xs| - 1], ys, key) + (if HasKey(ys, key, key(x)) then [] else [x])
  }

  /** Filtering keeps keys unique. */
  lemma {:induction false} UnmatchedUnique<T>(xs: seq<T>, ys: seq<T>, key: T -> string)
    requires UniqueKeys(xs, key)
    ensures UniqueKeys(Unmatched(xs, ys, key), key)
    decreases |xs|
  {
    if xs != [] {
      var init, x := xs[..|xs| - 1], xs[|xs| - 1];
      UniqueInit(xs, key);
      UnmatchedUnique(init, ys, key);
      var u := Unmatched(init, ys, key);
      if !HasKey(ys, key, key(x)) {
        assert !HasKey(u, key, key(x)) by {
          if HasKey(u, key, key(x)) {
            assert false;
          }
        }
        AppendFresh(u, key, x);
      }
    }
  }

  /** Two lists with unique keys, none shared, concatenate to a list with unique keys. */
  lemma UniqueConcat<T>(a: seq<T>, b: seq<T>, key: T -> string)
    requires UniqueKeys(a, key) && UniqueKeys(b, key)
    requires forall x :: x in b ==> !HasKey(a, key, key(x))
    ensures UniqueKeys(a + b, key)
  {
    var ab := a + b;
    forall i, j | 0 <= i < j < |ab| ensures key(ab[i]) != key(ab[j]) {
      if i < |a| && j >= |a| {
        assert ab[j] == b[j - |a|] && b[j - |a|] in b;
        assert ab[i] == a[i];
      } else if i >= |a| {
        assert ab[i] == b[i - |a|] && ab[j] == b[j - |a|];
      }
    }
  }

  /** A key is in a concatenation iff it is in one of the parts. */
  lemma HasKeyConcat<T>(a: seq<T>, b: seq<T>, key: T -> string, k: string)
    ensures HasKey(a + b, key, k) <==> HasKey(a, key, k) || HasKey(b, key, k)
  {
    if HasKey(a, key, k) {
      var i :| 0 <= i < |a| && key(a[i]) == k;
      assert (a + b)[i] == a[i];
    }
    if HasKey(b, key, k) {
      var i :| 0 <= i < |b| && key(b[i]) == k;
      assert (a + b)[|a| + i] == b[i];
    }
  }

  /** A key of the filtered list is a key of the list that the other list lacks. */
  lemma UnmatchedHasKey<T>(xs: seq<T>, ys: seq<T>, key: T -> string, k: string)
    ensures HasKey(Unmatched(xs, ys, key), key, k) ==> HasKey(xs, key, k) && !HasKey(ys, key, k)
  {
    var u := Unmatched(xs, ys, key);
    if HasKey(u, key, k) {
      var i :| 0 <= i < |u| && key(u[i]) == k;
      assert u[i] in u;
      var j :| 0 <= j < |xs| && xs[j] == u[i];
    }
  }

  /** Nothing to match against: the filter keeps everything. */
  lemma {:induction false} UnmatchedNone<T>(xs: seq<T>, key: T -> string)
    ensures Unmatched(xs, [], key) == xs
    decreases |xs|
  {
    if xs != [] {
      var init, x := xs[..|xs| - 1], xs[|xs| - 1];
      UnmatchedNone(init, key);
      assert !HasKey([], key, key(x));
      assert Unmatched(xs, [], key) == init + [x];
      assert init + [x] == xs;
    }
  }
}
