/** A stable sort by a key, and that there is only one. */
module StableSorts {

  /** An element goes behind those whose key is not greater. */
  function Insert<T>(s: seq<T>, x: T, key: T -> nat): (r: seq<T>)
    ensures |r| == |s| + 1
  {
    if s != [] && key(s[|s| - 1]) > key(x) then Insert(s[..|s| - 1], x, key) + [s[|s| - 1]] else s + [x]
  }

  function Sort<T>(s: seq<T>, key: T -> nat): seq<T> {
    if s == [] then [] else Insert(Sort(s[..|s| - 1], key), s[|s| - 1], key)
  }

  predicate Ordered<T>(s: seq<T>, key: T -> nat) {
    forall i, j :: 0 <= i < j < |s| ==> key(s[i]) <= key(s[j])
  }

  /** The elements with one key, in order. */
  function OfKey<T>(s: seq<T>, key: T -> nat, k: nat): seq<T> {
    if s == [] then [] else OfKey(s[..|s| - 1], key, k) + (if key(s[|s| - 1]) == k then [s[|s| - 1]] else [])
  }

  lemma {:induction false} InsertHas<T>(s: seq<T>, x: T, key: T -> nat)
    ensures multiset(Insert(s, x, key)) == multiset(s) + multiset{x}
    decreases |s|
  {
    if s != [] && key(s[|s| - 1]) > key(x) {
      InsertHas(s[..|s| - 1], x, key);
      assert s == s[..|s| - 1] + [s[|s| - 1]];
    }
  }

  lemma {:induction false} InsertOrders<T>(s: seq<T>, x: T, key: T -> nat)
    requires Ordered(s, key)
    ensures Ordered(Insert(s, x, key), key)
    decreases |s|
  {
    if s != [] && key(s[|s| - 1]) > key(x) {
      var short, last := s[..|s| - 1], s[|s| - 1];
      InsertOrders(short, x, key);
      InsertHas(short, x, key);
      var r := Insert(short, x, key);
      forall i | 0 <= i < |r| ensures key(r[i]) <= key(last) {
        assert r[i] in multiset(r);
        if r[i] != x {
          assert r[i] in short;
        }
      }
    }
  }

  lemma {:induction false} InsertIsStable<T>(s: seq<T>, x: T, key: T -> nat, k: nat)
    ensures OfKey(Insert(s, x, key), key, k) == OfKey(s, key, k) + (if key(x) == k then [x] else [])
    decreases |s|
  {
    var r := Insert(s, x, key);
    if s != [] && key(s[|s| - 1]) > key(x) {
      InsertIsStable(s[..|s| - 1], x, key, k);
      assert r[..|r| - 1] == Insert(s[..|s| - 1], x, key);
    } else {
      assert r[..|r| - 1] == s;
    }
  }

  /** Sorting orders by key, loses nothing, and keeps those with one key in their order. */
  lemma {:induction false} SortIsStable<T>(s: seq<T>, key: T -> nat, k: nat)
    ensures Ordered(Sort(s, key), key) && multiset(Sort(s, key)) == multiset(s)
    ensures OfKey(Sort(s, key), key, k) == OfKey(s, key, k)
    decreases |s|
  {
    if s != [] {
      var short, last := s[..|s| - 1], s[|s| - 1];
      SortIsStable(short, key, k);
      InsertHas(Sort(short, key), last, key);
      InsertOrders(Sort(short, key), last, key);
      InsertIsStable(Sort(short, key), last, key, k);
      assert s == short + [last];
    }
  }

  predicate HasKey<T>(s: seq<T>, key: T -> nat, k: nat) {
    exists i :: 0 <= i < |s| && key(s[i]) == k
  }

  lemma {:induction false} OfKeyIsEmpty<T>(s: seq<T>, key: T -> nat, k: nat)
    ensures OfKey(s, key, k) != [] <==> HasKey(s, key, k)
    decreases |s|
  {
    if s != [] {
      var short := s[..|s| - 1];
      OfKeyIsEmpty(short, key, k);
      if HasKey(short, key, k) {
        var i :| 0 <= i < |short| && key(short[i]) == k;
        assert key(s[i]) == k;
      }
      if HasKey(s, key, k) && key(s[|s| - 1]) != k {
        var i :| 0 <= i < |s| && key(s[i]) == k;
        assert key(short[i]) == k;
      }
    }
  }

  predicate SameOfKey<T(==)>(a: seq<T>, b: seq<T>, key: T -> nat, k: nat) {
    OfKey(a, key, k) == OfKey(b, key, k)
  }

  /** Equal for every key. */
  ghost predicate SameOfKeys<T>(a: seq<T>, b: seq<T>, key: T -> nat) {
    forall k: nat :: SameOfKey(a, b, key, k)
  }

  /** The last element of an ordered sequence has the greatest key, and is the last of those that have it. */
  lemma LastOfKey<T>(s: seq<T>, key: T -> nat, k: nat)
    requires s != [] && Ordered(s, key) && HasKey(s, key, k)
    ensures k <= key(s[|s| - 1]) && HasKey(s, key, key(s[|s| - 1]))
    ensures var same := OfKey(s, key, key(s[|s| - 1])); same != [] && same[|same| - 1] == s[|s| - 1]
  {
    var i :| 0 <= i < |s| && key(s[i]) == k;
  }

  lemma LastsAgree<T>(a: seq<T>, b: seq<T>, key: T -> nat)
    requires a != [] && b != [] && Ordered(a, key) && Ordered(b, key) && SameOfKeys(a, b, key)
    ensures a[|a| - 1] == b[|b| - 1]
  {
    var x, y := key(a[|a| - 1]), key(b[|b| - 1]);
    LastOfKey(a, key, x);
    LastOfKey(b, key, y);
    OfKeyIsEmpty(b, key, x);
    OfKeyIsEmpty(a, key, y);
    assert SameOfKey(a, b, key, x) && SameOfKey(a, b, key, y);
    LastOfKey(b, key, x);
    LastOfKey(a, key, y);
  }

  lemma ShorterSame<T>(a: seq<T>, b: seq<T>, key: T -> nat)
    requires a != [] && b != [] && a[|a| - 1] == b[|b| - 1] && SameOfKeys(a, b, key)
    ensures SameOfKeys(a[..|a| - 1], b[..|b| - 1], key)
  {
    var a1, b1 := a[..|a| - 1], b[..|b| - 1];
    forall k: nat ensures SameOfKey(a1, b1, key, k) {
      var x, y := OfKey(a1, key, k), OfKey(b1, key, k);
      assert SameOfKey(a, b, key, k);
      if key(a[|a| - 1]) == k {
        assert x + [a[|a| - 1]] == y + [a[|a| - 1]];
        assert x == (x + [a[|a| - 1]])[..|x|] && y == (y + [a[|a| - 1]])[..|y|];
      } else {
        assert x + [] == x && y + [] == y;
      }
    }
  }

  /** There is only one stable sort. */
  lemma {:induction false} StableSortIsUnique<T>(a: seq<T>, b: seq<T>, key: T -> nat)
    requires Ordered(a, key) && Ordered(b, key) && SameOfKeys(a, b, key)
    ensures a == b
    decreases |a|
  {
    if a == [] {
      NothingSame(b, key);
    } else if b == [] {
      forall k: nat ensures SameOfKey(b, a, key, k) {
        assert SameOfKey(a, b, key, k);
      }
      NothingSame(a, key);
    } else {
      LastsAgree(a, b, key);
      ShorterSame(a, b, key);
      StableSortIsUnique(a[..|a| - 1], b[..|b| - 1], key);
      assert a == a[..|a| - 1] + [a[|a| - 1]] && b == b[..|b| - 1] + [b[|b| - 1]];
    }
  }

  lemma NothingSame<T>(s: seq<T>, key: T -> nat)
    requires SameOfKeys([], s, key)
    ensures s == []
  {
    var k := if s == [] then 0 else key(s[|s| - 1]);
    assert SameOfKey([], s, key, k);
  }

  lemma SortedHas<T>(s: seq<T>, key: T -> nat, x: T)
    ensures x in Sort(s, key) <==> x in s
  {
    SortIsStable(s, key, 0);
    assert x in Sort(s, key) <==> x in multiset(Sort(s, key));
    assert x in s <==> x in multiset(s);
  }
}
