/**
 * Ranking by a numeric key, descending, as `Array.prototype.sort` does with a
 * comparator `(a, b) => key(b) - key(a)`. The sort is stable (ECMA-262, 10th
 * edition, section 22.1.3.27), so items with equal keys keep their input order.
 * Both the job feed's "best matches" and the server's ranking of scored
 * postings use it.
 */
module Ranking {

  /** Non-increasing by key. */
  ghost predicate Descending<T>(s: seq<T>, key: T -> int) {
    forall i, j :: 0 <= i < j < |s| ==> key(s[i]) >= key(s[j])
  }

  /** The items of `s` whose key is `v`, in the order they appear in `s`. */
  function Only<T>(s: seq<T>, key: T -> int, v: int): seq<T>
  {
    if s == [] then []
    else (if key(s[0]) == v then [s[0]] else []) + Only(s[1..], key, v)
  }

  /** Only keeps items of `s`, each with key `v`. */
  lemma {:induction false} OnlyMember<T>(s: seq<T>, key: T -> int, v: int, x: T)
    requires x in Only(s, key, v)
    ensures x in s && key(x) == v
  {
    if s[0] != x || key(s[0]) != v {
      OnlyMember(s[1..], key, v, x);
    }
  }

  lemma {:induction false} OnlyAppend<T>(a: seq<T>, b: seq<T>, key: T -> int, v: int)
    ensures Only(a + b, key, v) == Only(a, key, v) + Only(b, key, v)
  {
    if a == [] {
      assert a + b == b;
    } else {
      var head := if key(a[0]) == v then [a[0]] else [];
      assert (a + b)[0] == a[0] && (a + b)[1..] == a[1..] + b;
      OnlyAppend(a[1..], b, key, v);
      calc {
        Only(a + b, key, v);
        head + Only(a[1..] + b, key, v);
        head + (Only(a[1..], key, v) + Only(b, key, v));
        (head + Only(a[1..], key, v)) + Only(b, key, v);
      }
    }
  }

  /** Taking a prefix keeps, for every key, a prefix of the items with that key. */
  lemma OnlyPrefix<T>(s: seq<T>, k: nat, key: T -> int, v: int)
    requires k <= |s|
    ensures Only(s[..k], key, v) <= Only(s, key, v)
  {
    assert s == s[..k] + s[k..];
    OnlyAppend(s[..k], s[k..], key, v);
  }

  /**
   * Inserts `x` in front of the first item with a key no greater than its own:
   * `x` lands before every item with an equal key, which is where a stable
   * sort puts an item that came first in the input.
   */
  function Insert<T>(x: T, t: seq<T>, key: T -> int): (r: seq<T>)
    ensures |r| == |t| + 1
    ensures multiset(r) == multiset(t) + multiset{x}
  {
    if t == [] || key(x) >= key(t[0]) then [x] + t
    else
      assert t == [t[0]] + t[1..];
      [t[0]] + Insert(x, t[1..], key)
  }

  /** In a non-increasing sequence every item's key is at most the first one's. */
  lemma HeadIsMax<T>(s: seq<T>, key: T -> int, y: T)
    requires Descending(s, key) && y in multiset(s)
    ensures key(y) <= key(s[0])
  {
    var m :| 0 <= m < |s| && s[m] == y;
  }

  /** An item whose key is at least every key of a non-increasing sequence can go in front of it. */
  lemma ConsDescending<T>(h: T, s: seq<T>, key: T -> int)
    requires Descending(s, key)
    requires forall j :: 0 <= j < |s| ==> key(s[j]) <= key(h)
    ensures Descending([h] + s, key)
  {
    var r := [h] + s;
    forall i, j | 0 <= i < j < |r| ensures key(r[i]) >= key(r[j]) {
      assert r[j] == s[j - 1];
      if i > 0 {
        assert r[i] == s[i - 1];
      }
    }
  }

  lemma {:induction false} InsertDescending<T>(x: T, t: seq<T>, key: T -> int)
    requires Descending(t, key)
    ensures Descending(Insert(x, t, key), key)
  {
    if t == [] || key(x) >= key(t[0]) {
      ConsDescending(x, t, key);
    } else {
      var tail := t[1..];
      var rest := Insert(x, tail, key);
      assert Descending(tail, key) by {
        forall i, j | 0 <= i < j < |tail| ensures key(tail[i]) >= key(tail[j]) {
          assert tail[i] == t[i + 1] && tail[j] == t[j + 1];
        }
      }
      InsertDescending(x, tail, key);
      forall j | 0 <= j < |rest| ensures key(rest[j]) <= key(t[0]) {
        var y := rest[j];
        assert y in multiset(rest);
        if y != x {
          assert y in multiset(tail);
          var m :| 0 <= m < |tail| && tail[m] == y;
          assert t[m + 1] == y;
        }
      }
      ConsDescending(t[0], rest, key);
    }
  }

  /** Insert puts `x` before every item that has its key and moves nothing else. */
  lemma {:induction false} InsertOnly<T>(x: T, t: seq<T>, key: T -> int, v: int)
    ensures Only(Insert(x, t, key), key, v) == (if key(x) == v then [x] else []) + Only(t, key, v)
  {
    if t == [] || key(x) >= key(t[0]) {
      var r := [x] + t;
      assert Insert(x, t, key) == r;
      assert r[1..] == t;
    } else {
      var rest := Insert(x, t[1..], key);
      var r := [t[0]] + rest;
      assert Insert(x, t, key) == r;
      InsertOnly(x, t[1..], key, v);
      assert r[1..] == rest;
      assert key(t[0]) != key(x);
      calc {
        Only(r, key, v);
        (if key(t[0]) == v then [t[0]] else []) + Only(rest, key, v);
        (if key(t[0]) == v then [t[0]] else []) + ((if key(x) == v then [x] else []) + Only(t[1..], key, v));
        (if key(x) == v then [x] else []) + ((if key(t[0]) == v then [t[0]] else []) + Only(t[1..], key, v));
        (if key(x) == v then [x] else []) + Only(t, key, v);
      }
    }
  }

  /**
   * A stable sort, descending by key: the result is a permutation of the
   * input, non-increasing, and items with equal keys keep their input order.
   */
  function SortDesc<T>(s: seq<T>, key: T -> int): (r: seq<T>)
    ensures |r| == |s|
    ensures multiset(r) == multiset(s)
    ensures Descending(r, key)
    ensures forall v :: Only(r, key, v) == Only(s, key, v)
  {
    if s == [] then []
    else
      var t := SortDesc(s[1..], key);
      assert s == [s[0]] + s[1..];
      InsertDescending(s[0], t, key);
      InsertKeepsOrder(s, t, key);
      Insert(s[0], t, key)
  }

  /** Inserting the first item of `s` into a per-key copy of its tail gives a per-key copy of `s`. */
  lemma InsertKeepsOrder<T>(s: seq<T>, t: seq<T>, key: T -> int)
    requires s != []
    requires forall v :: Only(t, key, v) == Only(s[1..], key, v)
    ensures forall v :: Only(Insert(s[0], t, key), key, v) == Only(s, key, v)
  {
    forall v ensures Only(Insert(s[0], t, key), key, v) == Only(s, key, v) {
      InsertOnly(s[0], t, key, v);
    }
  }

  /** Two sequences with the same items per key share their first key, when both are sorted. */
  lemma SameHeadKey<T>(a: seq<T>, b: seq<T>, key: T -> int)
    requires a != [] && b != []
    requires Descending(a, key) && Descending(b, key)
    requires forall v :: Only(a, key, v) == Only(b, key, v)
    ensures key(a[0]) == key(b[0])
  {
    var ka, kb := key(a[0]), key(b[0]);
    assert Only(a, key, ka)[0] == a[0];
    OnlyMember(b, key, ka, a[0]);
    HeadIsMax(b, key, a[0]);
    assert Only(b, key, kb)[0] == b[0];
    OnlyMember(a, key, kb, b[0]);
    HeadIsMax(a, key, b[0]);
  }

  /** A non-empty sequence has, for the key of its first item, a non-empty Only. */
  lemma OnlyHeadNonEmpty<T>(s: seq<T>, key: T -> int)
    requires s != []
    ensures Only(s, key, key(s[0])) != []
  {
  }

  /**
   * Two sequences whose first items share a key and which hold the same
   * items per key start with the same item and agree per key on their tails.
   */
  lemma SameTails<T>(a: seq<T>, b: seq<T>, key: T -> int)
    requires a != [] && b != [] && key(a[0]) == key(b[0])
    requires forall v :: Only(a, key, v) == Only(b, key, v)
    ensures a[0] == b[0]
    ensures forall v :: Only(a[1..], key, v) == Only(b[1..], key, v)
  {
    var k := key(a[0]);
    assert Only(a, key, k) == [a[0]] + Only(a[1..], key, k);
    assert Only(b, key, k) == [b[0]] + Only(b[1..], key, k);
    assert Only(a, key, k)[0] == a[0] && Only(b, key, k)[0] == b[0];
    forall v ensures Only(a[1..], key, v) == Only(b[1..], key, v) {
      if v != k {
        assert Only(a, key, v) == Only(a[1..], key, v);
        assert Only(b, key, v) == Only(b[1..], key, v);
      } else {
        assert Only(a, key, k)[1..] == Only(a[1..], key, k);
        assert Only(b, key, k)[1..] == Only(b[1..], key, k);
      }
    }
  }

  /**
   * The sort's contract determines its result: two sequences that are
   * non-increasing and hold the same items per key, in the same order, are
   * equal. So every stable descending sort agrees with SortDesc.
   */
  lemma {:induction false} StableSortUnique<T>(a: seq<T>, b: seq<T>, key: T -> int)
    requires Descending(a, key) && Descending(b, key)
    requires forall v :: Only(a, key, v) == Only(b, key, v)
    ensures a == b
    decreases |a|
  {
    if a == [] {
      if b != [] {
        OnlyHeadNonEmpty(b, key);
      }
    } else if b == [] {
      OnlyHeadNonEmpty(a, key);
    } else {
      SameHeadKey(a, b, key);
      SameTails(a, b, key);
      assert Descending(a[1..], key) && Descending(b[1..], key);
      StableSortUnique(a[1..], b[1..], key);
      assert a == [a[0]] + a[1..] && b == [b[0]] + b[1..];
    }
  }
}
