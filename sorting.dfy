/** Python's `list.sort(key=...)` with a real-valued key: a stable sort.
    Both the choreography event list (sorted by timestamp) and the TTS marker
    list (sorted by start time) are ordered with it. The sort is given as a
    stable insertion sort, and its three properties are proved: the result is
    ordered by the key, it is a permutation of the input, and for every key
    value the elements carrying that key keep their original relative order. */
module Sorting {

  ghost predicate SortedBy<T>(s: seq<T>, key: T -> real)
  {
    forall i, j :: 0 <= i < j < |s| ==> key(s[i]) <= key(s[j])
  }

  /** The elements of `s` whose key equals `k`, in their order in `s`. */
  function WithKey<T>(s: seq<T>, key: T -> real, k: real): seq<T>
  {
    if |s| == 0 then []
    else (if key(s[0]) == k then [s[0]] else []) + WithKey(s[1..], key, k)
  }

  /** Inserts `x` before the first element whose key is not smaller, so that
      `x` stays ahead of the elements with an equal key. */
  function Insert<T>(x: T, s: seq<T>, key: T -> real): seq<T>
  {
    if |s| == 0 then [x]
    else if key(x) <= key(s[0]) then [x] + s
    else [s[0]] + Insert(x, s[1..], key)
  }

  function SortBy<T>(s: seq<T>, key: T -> real): seq<T>
  {
    if |s| == 0 then [] else Insert(s[0], SortBy(s[1..], key), key)
  }

  ghost predicate AllAtLeast<T>(s: seq<T>, key: T -> real, b: real)
  {
    forall j :: 0 <= j < |s| ==> b <= key(s[j])
  }

  lemma ConsSorted<T>(a: T, r: seq<T>, key: T -> real)
    requires SortedBy(r, key) && AllAtLeast(r, key, key(a))
    ensures SortedBy([a] + r, key)
  {
    var c := [a] + r;
    forall i, j | 0 <= i < j < |c| ensures key(c[i]) <= key(c[j]) {
      assert c[j] == r[j - 1];
      if i > 0 { assert c[i] == r[i - 1]; }
    }
  }

  lemma SortedTail<T>(s: seq<T>, key: T -> real)
    requires |s| > 0 && SortedBy(s, key)
    ensures SortedBy(s[1..], key) && AllAtLeast(s[1..], key, key(s[0]))
  {
    forall j | 0 <= j < |s[1..]| ensures key(s[0]) <= key(s[1..][j]) {
      assert s[1..][j] == s[j + 1];
    }
  }

  lemma {:induction false} InsertAtLeast<T>(x: T, s: seq<T>, key: T -> real, b: real)
    requires AllAtLeast(s, key, b) && b <= key(x)
    ensures AllAtLeast(Insert(x, s, key), key, b)
  {
    if |s| == 0 {
    } else if key(x) <= key(s[0]) {
      var r := [x] + s;
      forall j | 0 <= j < |r| ensures b <= key(r[j]) {
        if j > 0 { assert r[j] == s[j - 1]; }
      }
    } else {
      assert AllAtLeast(s[1..], key, b) by {
        forall j | 0 <= j < |s[1..]| ensures b <= key(s[1..][j]) {
          assert s[1..][j] == s[j + 1];
        }
      }
      InsertAtLeast(x, s[1..], key, b);
      var rest := Insert(x, s[1..], key);
      var r := [s[0]] + rest;
      forall j | 0 <= j < |r| ensures b <= key(r[j]) {
        if j > 0 { assert r[j] == rest[j - 1]; }
      }
    }
  }

  lemma {:induction false} InsertSorted<T>(x: T, s: seq<T>, key: T -> real)
    requires SortedBy(s, key)
    ensures SortedBy(Insert(x, s, key), key)
  {
    if |s| == 0 {
    } else if key(x) <= key(s[0]) {
      SortedTail(s, key);
      assert AllAtLeast(s, key, key(x)) by {
        forall j | 0 <= j < |s| ensures key(x) <= key(s[j]) {
          if j > 0 { assert s[1..][j - 1] == s[j]; }
        }
      }
      ConsSorted(x, s, key);
    } else {
      SortedTail(s, key);
      InsertSorted(x, s[1..], key);
      InsertAtLeast(x, s[1..], key, key(s[0]));
      ConsSorted(s[0], Insert(x, s[1..], key), key);
    }
  }

  lemma {:induction false} InsertMultiset<T>(x: T, s: seq<T>, key: T -> real)
    ensures multiset(Insert(x, s, key)) == multiset(s) + multiset{x}
  {
    if |s| == 0 {
    } else if key(x) <= key(s[0]) {
      assert multiset([x] + s) == multiset{x} + multiset(s);
    } else {
      InsertMultiset(x, s[1..], key);
      assert s == [s[0]] + s[1..];
      assert multiset(s) == multiset{s[0]} + multiset(s[1..]);
      var rest := Insert(x, s[1..], key);
      assert multiset([s[0]] + rest) == multiset{s[0]} + multiset(rest);
    }
  }

  lemma WithKeyCons<T>(a: T, r: seq<T>, key: T -> real, k: real)
    ensures WithKey([a] + r, key, k) == (if key(a) == k then [a] else []) + WithKey(r, key, k)
  {
    var c := [a] + r;
    assert c[0] == a && c[1..] == r;
  }

  lemma {:induction false} InsertWithKey<T>(x: T, s: seq<T>, key: T -> real, k: real)
    ensures WithKey(Insert(x, s, key), key, k)
         == (if key(x) == k then [x] else []) + WithKey(s, key, k)
  {
    if |s| == 0 {
      WithKeyCons(x, [], key, k);
      assert [x] + [] == [x];
    } else if key(x) <= key(s[0]) {
      WithKeyCons(x, s, key, k);
    } else {
      var rest, tail := Insert(x, s[1..], key), WithKey(s[1..], key, k);
      var hx := if key(x) == k then [x] else [];
      var h0 := if key(s[0]) == k then [s[0]] else [];
      // s[0] and x cannot both carry the key k, since key(s[0]) < key(x)
      assert h0 == [] || hx == [];
      calc {
        WithKey(Insert(x, s, key), key, k);
        WithKey([s[0]] + rest, key, k);
      == { WithKeyCons(s[0], rest, key, k); }
        h0 + WithKey(rest, key, k);
      == { InsertWithKey(x, s[1..], key, k); }
        h0 + (hx + tail);
      == { assert h0 + (hx + tail) == hx + (h0 + tail); }
        hx + (h0 + tail);
      == { WithKeyCons(s[0], s[1..], key, k); assert [s[0]] + s[1..] == s; }
        hx + WithKey(s, key, k);
      }
    }
  }

  lemma {:induction false} SortBySorted<T>(s: seq<T>, key: T -> real)
    ensures SortedBy(SortBy(s, key), key)
  {
    if |s| > 0 {
      SortBySorted(s[1..], key);
      InsertSorted(s[0], SortBy(s[1..], key), key);
    }
  }

  lemma {:induction false} SortByPermutes<T>(s: seq<T>, key: T -> real)
    ensures multiset(SortBy(s, key)) == multiset(s)
  {
    if |s| > 0 {
      SortByPermutes(s[1..], key);
      InsertMultiset(s[0], SortBy(s[1..], key), key);
      assert s == [s[0]] + s[1..];
      assert multiset(s) == multiset{s[0]} + multiset(s[1..]);
    }
  }

  lemma {:induction false} SortByKeepsKeyOrder<T>(s: seq<T>, key: T -> real, k: real)
    ensures WithKey(SortBy(s, key), key, k) == WithKey(s, key, k)
  {
    if |s| > 0 {
      SortByKeepsKeyOrder(s[1..], key, k);
      InsertWithKey(s[0], SortBy(s[1..], key), key, k);
    }
  }

  /** The sort orders by key, permutes, and is stable: for each key value the
      subsequence of elements carrying it is unchanged. */
  lemma SortByProperties<T>(s: seq<T>, key: T -> real)
    ensures SortedBy(SortBy(s, key), key)
    ensures multiset(SortBy(s, key)) == multiset(s)
    ensures |SortBy(s, key)| == |s|
    ensures forall k :: WithKey(SortBy(s, key), key, k) == WithKey(s, key, k)
  {
    SortBySorted(s, key);
    SortByPermutes(s, key);
    assert |SortBy(s, key)| == |multiset(SortBy(s, key))|;
    forall k ensures WithKey(SortBy(s, key), key, k) == WithKey(s, key, k) {
      SortByKeepsKeyOrder(s, key, k);
    }
  }

  /** Sorting a list that is already in key order leaves it unchanged. */
  lemma {:induction false} SortBySortedIdentity<T>(s: seq<T>, key: T -> real)
    requires SortedBy(s, key)
    ensures SortBy(s, key) == s
  {
    if |s| > 0 {
      assert SortedBy(s[1..], key) by {
        forall i, j | 0 <= i < j < |s[1..]| ensures key(s[1..][i]) <= key(s[1..][j]) {
          assert s[1..][i] == s[i + 1] && s[1..][j] == s[j + 1];
        }
      }
      SortBySortedIdentity(s[1..], key);
      if |s| > 1 {
        assert key(s[0]) <= key(s[1]);
      }
      assert s == [s[0]] + s[1..];
    }
  }
}
