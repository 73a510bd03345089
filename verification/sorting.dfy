/** Python's `sorted(xs, key=...)` for the keys the plugin uses: a stable
    sort by a key that is either a string or a (bool, string) tuple. */
module Sorting {

  /** A sort key: the tuple (last, text); a plain string key has last = false.
      Tuples compare first by `last` (False < True), then by `text`. */
  datatype SortKey = SortKey(last: bool, text: string)

  /** Python's `a <= b` on strings: lexicographic by code point. */
  predicate TextLe(a: string, b: string)
    decreases |a|
  {
    a == [] || (b != [] && (a[0] < b[0] || (a[0] == b[0] && TextLe(a[1..], b[1..]))))
  }

  predicate KeyLe(a: SortKey, b: SortKey)
  {
    (!a.last && b.last) || (a.last == b.last && TextLe(a.text, b.text))
  }

  lemma {:induction false} TextLeTotal(a: string, b: string)
    ensures TextLe(a, b) || TextLe(b, a)
    decreases |a|
  {
    if a != [] && b != [] && a[0] == b[0] {
      TextLeTotal(a[1..], b[1..]);
    }
  }

  lemma {:induction false} TextLeTransitive(a: string, b: string, c: string)
    requires TextLe(a, b) && TextLe(b, c)
    ensures TextLe(a, c)
    decreases |a|
  {
    if a != [] && b != [] && c != [] && a[0] == b[0] == c[0] {
      TextLeTransitive(a[1..], b[1..], c[1..]);
    }
  }

  lemma KeyLeTotal(a: SortKey, b: SortKey)
    ensures KeyLe(a, b) || KeyLe(b, a)
  {
    TextLeTotal(a.text, b.text);
  }

  lemma KeyLeTransitive(a: SortKey, b: SortKey, c: SortKey)
    requires KeyLe(a, b) && KeyLe(b, c)
    ensures KeyLe(a, c)
  {
    if a.last == b.last == c.last {
      TextLeTransitive(a.text, b.text, c.text);
    }
  }

  ghost predicate Sorted<T>(s: seq<T>, key: T -> SortKey)
  {
    forall i, j :: 0 <= i < j < |s| ==> KeyLe(key(s[i]), key(s[j]))
  }

  /** Insert `x` before the first element whose key is not smaller than its
      own, so that `x` stays ahead of later elements with an equal key. */
  function Insert<T>(x: T, ys: seq<T>, key: T -> SortKey): (r: seq<T>)
    ensures |r| == |ys| + 1
    ensures multiset(r) == multiset(ys) + multiset{x}
  {
    if ys == [] then [x]
    else if KeyLe(key(x), key(ys[0])) then [x] + ys
    else
      assert ys == [ys[0]] + ys[1..];
      [ys[0]] + Insert(x, ys[1..], key)
  }

  /** `sorted(xs, key=key)`. */
  function SortBy<T>(xs: seq<T>, key: T -> SortKey): (r: seq<T>)
    ensures |r| == |xs|
    ensures multiset(r) == multiset(xs)
  {
    if xs == [] then []
    else
      assert xs == [xs[0]] + xs[1..];
      Insert(xs[0], SortBy(xs[1..], key), key)
  }

  lemma {:induction false} InsertSorted<T>(x: T, ys: seq<T>, key: T -> SortKey)
    requires Sorted(ys, key)
    ensures Sorted(Insert(x, ys, key), key)
    decreases |ys|
  {
    if ys != [] {
      var r := Insert(x, ys, key);
      if KeyLe(key(x), key(ys[0])) {
        forall i, j | 0 <= i < j < |r| ensures KeyLe(key(r[i]), key(r[j])) {
          if i == 0 && j > 1 {
            KeyLeTransitive(key(x), key(ys[0]), key(ys[j - 1]));
          }
        }
      } else {
        KeyLeTotal(key(x), key(ys[0]));
        var tail := Insert(x, ys[1..], key);
        InsertSorted(x, ys[1..], key);
        forall j | 0 <= j < |tail| ensures KeyLe(key(ys[0]), key(tail[j])) {
          assert tail[j] in multiset(tail);
          if tail[j] != x {
            assert tail[j] in multiset(ys[1..]);
            var k :| 0 <= k < |ys[1..]| && ys[1..][k] == tail[j];
            assert ys[k + 1] == tail[j];
          }
        }
      }
    }
  }

  /** The result of `sorted` is ordered by the key. */
  lemma {:induction false} SortBySorted<T>(xs: seq<T>, key: T -> SortKey)
    ensures Sorted(SortBy(xs, key), key)
  {
    if xs != [] {
      SortBySorted(xs[1..], key);
      InsertSorted(xs[0], SortBy(xs[1..], key), key);
    }
  }

  /** The elements of `xs` whose key is `k`, in their order in `xs`. */
  function WithKey<T>(xs: seq<T>, key: T -> SortKey, k: SortKey): seq<T>
  {
    if xs == [] then []
    else (if key(xs[0]) == k then [xs[0]] else []) + WithKey(xs[1..], key, k)
  }

  lemma KeyLeReflexive(a: SortKey)
    ensures KeyLe(a, a)
  {
    TextLeTotal(a.text, a.text);
  }

  /** Inserting `x` puts it ahead of every element with the same key and
      leaves their order alone. */
  lemma {:induction false} InsertWithKey<T>(x: T, ys: seq<T>, key: T -> SortKey, k: SortKey)
    ensures WithKey(Insert(x, ys, key), key, k) == (if key(x) == k then [x] else []) + WithKey(ys, key, k)
    decreases |ys|
  {
    var r := Insert(x, ys, key);
    if ys == [] {
      assert r[1..] == [];
    } else if KeyLe(key(x), key(ys[0])) {
      assert r[0] == x && r[1..] == ys;
    } else {
      KeyLeReflexive(key(x));
      assert key(ys[0]) != key(x);
      assert r[0] == ys[0] && r[1..] == Insert(x, ys[1..], key);
      InsertWithKey(x, ys[1..], key, k);
    }
  }

  /** `sorted` is stable: for every key value, the elements with that key
      appear in the result in the order they had in the input. */
  lemma {:induction false} SortByStable<T>(xs: seq<T>, key: T -> SortKey, k: SortKey)
    ensures WithKey(SortBy(xs, key), key, k) == WithKey(xs, key, k)
  {
    if xs != [] {
      SortByStable(xs[1..], key, k);
      InsertWithKey(xs[0], SortBy(xs[1..], key), key, k);
    }
  }

  function Zip<A, B>(xs: seq<A>, ys: seq<B>): (r: seq<(A, B)>)
    requires |xs| == |ys|
    ensures |r| == |xs|
    ensures forall i :: 0 <= i < |r| ==> r[i] == (xs[i], ys[i])
  {
    if xs == [] then [] else [(xs[0], ys[0])] + Zip(xs[1..], ys[1..])
  }

  /** The key of a pair is the key of its first component. */
  function FirstKey<A, B>(ka: A -> SortKey): ((A, B)) -> SortKey
  {
    (p: (A, B)) => ka(p.0)
  }

  ghost predicate KeysAligned<A, B>(xs: seq<A>, ys: seq<B>, ka: A -> SortKey, kb: B -> SortKey)
  {
    |xs| == |ys| && forall i :: 0 <= i < |xs| ==> ka(xs[i]) == kb(ys[i])
  }

  lemma {:induction false} InsertZip<A, B>(x: A, y: B, xs: seq<A>, ys: seq<B>, ka: A -> SortKey, kb: B -> SortKey)
    requires KeysAligned(xs, ys, ka, kb) && ka(x) == kb(y)
    ensures Zip(Insert(x, xs, ka), Insert(y, ys, kb)) == Insert((x, y), Zip(xs, ys), FirstKey(ka))
    decreases |xs|
  {
    if xs != [] {
      assert Zip(xs, ys)[0] == (xs[0], ys[0]);
      assert Zip(xs, ys)[1..] == Zip(xs[1..], ys[1..]);
      if !KeyLe(ka(x), ka(xs[0])) {
        InsertZip(x, y, xs[1..], ys[1..], ka, kb);
      }
    }
  }

  /** Every pair of a sorted zip is a pair of the original zip. */
  lemma PairOfZip<A, B>(xs: seq<A>, ys: seq<B>, p: (A, B))
    requires |xs| == |ys| && p in multiset(Zip(xs, ys))
    ensures exists j :: 0 <= j < |xs| && p == (xs[j], ys[j])
  {
    var z := Zip(xs, ys);
    assert p in z;
    var j :| 0 <= j < |z| && z[j] == p;
  }

  /** Sorting two lists whose keys agree position by position applies the same
      permutation to both: the pairs (xs[i], ys[i]) travel together. */
  lemma {:induction false} SortZip<A, B>(xs: seq<A>, ys: seq<B>, ka: A -> SortKey, kb: B -> SortKey)
    requires KeysAligned(xs, ys, ka, kb)
    ensures Zip(SortBy(xs, ka), SortBy(ys, kb)) == SortBy(Zip(xs, ys), FirstKey(ka))
  {
    if xs != [] {
      var sx, sy := SortBy(xs[1..], ka), SortBy(ys[1..], kb);
      SortZip(xs[1..], ys[1..], ka, kb);
      assert Zip(xs, ys)[1..] == Zip(xs[1..], ys[1..]);
      assert Zip(xs, ys)[0] == (xs[0], ys[0]);
      forall i | 0 <= i < |sx| ensures ka(sx[i]) == kb(sy[i]) {
        var z := Zip(sx, sy);
        assert z[i] == (sx[i], sy[i]);
        assert z[i] in multiset(SortBy(Zip(xs[1..], ys[1..]), FirstKey(ka)));
        PairOfZip(xs[1..], ys[1..], z[i]);
      }
      InsertZip(xs[0], ys[0], sx, sy, ka, kb);
    }
  }

  /** Consequence of SortZip: each position of the two sorted lists holds a
      pair that stood at one common position of the inputs. */
  lemma SortKeepsPairs<A, B>(xs: seq<A>, ys: seq<B>, ka: A -> SortKey, kb: B -> SortKey, i: nat)
    requires KeysAligned(xs, ys, ka, kb) && i < |xs|
    ensures exists j :: 0 <= j < |xs| && SortBy(xs, ka)[i] == xs[j] && SortBy(ys, kb)[i] == ys[j]
  {
    var sx, sy := SortBy(xs, ka), SortBy(ys, kb);
    SortZip(xs, ys, ka, kb);
    var z := Zip(sx, sy);
    assert z[i] == (sx[i], sy[i]);
    assert z[i] in multiset(SortBy(Zip(xs, ys), FirstKey(ka)));
    PairOfZip(xs, ys, z[i]);
  }
}
