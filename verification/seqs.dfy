/** Array operations of the JavaScript runtime used by the core, on sequences:
    `slice(0, end)` with its negative-end rule, and `Array.prototype.sort` with a
    numeric comparator `(a, b) => key(b) - key(a)`, which since ES2019 is a
    stable sort into non-increasing key order. */
module Seqs {
  import Text

  // ---------------------------------------------------------------------------
  // `slice(0, end)`
  // ---------------------------------------------------------------------------

  /** Where `slice(0, end)` stops: a negative `end` counts back from the end of
      the array, and the result is clamped to `[0, |s|]`. */
  function SliceEnd(len: nat, end: int): (k: nat)
    ensures k <= len
    ensures 0 <= end ==> k == if end < len then end else len
    ensures end < 0 ==> k == if len + end > 0 then len + end else 0
  {
    if end >= 0 then (if end < len then end else len)
    else if len + end > 0 then len + end else 0
  }

  /** `s.slice(0, end)`. */
  function SliceTo<T>(s: seq<T>, end: int): (r: seq<T>)
    ensures |r| <= |s| && r == s[..|r|]
    ensures 0 <= end ==> |r| == if end < |s| then end else |s|
  {
    s[..SliceEnd(|s|, end)]
  }

  // ---------------------------------------------------------------------------
  // Stable sort, descending by an integer key
  // ---------------------------------------------------------------------------

  ghost predicate NonIncreasing<T>(s: seq<T>, key: T -> int) {
    forall i, j :: 0 <= i < j < |s| ==> key(s[i]) >= key(s[j])
  }

  /** The elements of `s` whose key is `v`, in their order in `s`. */
  function WithKey<T>(s: seq<T>, key: T -> int, v: int): seq<T> {
    if s == [] then []
    else if key(s[|s| - 1]) == v then WithKey(s[..|s| - 1], key, v) + [s[|s| - 1]]
    else WithKey(s[..|s| - 1], key, v)
  }

  /** Puts `x` into the non-increasing `s` after every element whose key is at
      least its own, which is what keeps equal keys in arrival order. */
  function InsertDesc<T>(x: T, s: seq<T>, key: T -> int): (r: seq<T>)
    ensures |r| == |s| + 1 && multiset(r) == multiset(s) + multiset{x}
  {
    if s == [] then [x]
    else if key(s[0]) >= key(x) then
      assert s == [s[0]] + s[1..];
      [s[0]] + InsertDesc(x, s[1..], key)
    else [x] + s
  }

  /** `s.sort((a, b) => key(b) - key(a))` */
  function SortDesc<T>(s: seq<T>, key: T -> int): (r: seq<T>)
    ensures |r| == |s| && multiset(r) == multiset(s)
  {
    if s == [] then []
    else
      assert s == s[..|s| - 1] + [s[|s| - 1]];
      InsertDesc(s[|s| - 1], SortDesc(s[..|s| - 1], key), key)
  }

  lemma {:induction false} InsertDescSorted<T>(x: T, s: seq<T>, key: T -> int)
    requires NonIncreasing(s, key)
    ensures NonIncreasing(InsertDesc(x, s, key), key)
  {
    if s != [] && key(s[0]) >= key(x) {
      InsertDescSorted(x, s[1..], key);
      var r := InsertDesc(x, s[1..], key);
      assert multiset(r) == multiset(s[1..]) + multiset{x};
      forall j | 0 < j < |r| + 1 ensures key(s[0]) >= key(([s[0]] + r)[j]) {
        assert r[j - 1] in multiset(r);
      }
    }
  }

  /** The sort orders by key, highest first. */
  lemma {:induction false} SortDescSorted<T>(s: seq<T>, key: T -> int)
    ensures NonIncreasing(SortDesc(s, key), key)
  {
    if s != [] {
      SortDescSorted(s[..|s| - 1], key);
      InsertDescSorted(s[|s| - 1], SortDesc(s[..|s| - 1], key), key);
    }
  }

  lemma {:induction false} WithKeyCons<T>(y: T, s: seq<T>, key: T -> int, v: int)
    ensures WithKey([y] + s, key, v) == (if key(y) == v then [y] else []) + WithKey(s, key, v)
    decreases |s|
  {
    var t := [y] + s;
    if s != [] {
      assert t[..|t| - 1] == [y] + s[..|s| - 1];
      assert t[|t| - 1] == s[|s| - 1];
      WithKeyCons(y, s[..|s| - 1], key, v);
    } else {
      assert t[..|t| - 1] == [];
    }
  }

  lemma {:induction false} WithKeyBelow<T>(s: seq<T>, key: T -> int, v: int)
    requires forall i :: 0 <= i < |s| ==> key(s[i]) != v
    ensures WithKey(s, key, v) == []
  {
    if s != [] {
      WithKeyBelow(s[..|s| - 1], key, v);
    }
  }

  lemma {:induction false} InsertDescWithKey<T>(x: T, s: seq<T>, key: T -> int, v: int)
    requires NonIncreasing(s, key)
    ensures WithKey(InsertDesc(x, s, key), key, v)
         == WithKey(s, key, v) + (if key(x) == v then [x] else [])
  {
    var here: seq<T> := if key(x) == v then [x] else [];
    if s == [] {
      assert WithKey([x], key, v) == WithKey([], key, v) + here;
    } else if key(s[0]) >= key(x) {
      var head: seq<T> := if key(s[0]) == v then [s[0]] else [];
      var rest := InsertDesc(x, s[1..], key);
      assert InsertDesc(x, s, key) == [s[0]] + rest;
      assert NonIncreasing(s[1..], key) by {
        forall i, j | 0 <= i < j < |s[1..]| ensures key(s[1..][i]) >= key(s[1..][j]) {
          assert s[1..][i] == s[i + 1] && s[1..][j] == s[j + 1];
        }
      }
      InsertDescWithKey(x, s[1..], key, v);
      WithKeyCons(s[0], rest, key, v);
      WithKeyCons(s[0], s[1..], key, v);
      assert [s[0]] + s[1..] == s;
      Text.AppendAssoc(head, WithKey(s[1..], key, v), here);
    } else {
      // every element of `s` has a key above `key(x)`
      WithKeyCons(x, s, key, v);
      if key(x) == v {
        WithKeyBelow(s, key, v);
      }
    }
  }

  /** Stability: among elements with equal keys the sort keeps the input order. */
  lemma {:induction false} SortDescStable<T>(s: seq<T>, key: T -> int, v: int)
    ensures WithKey(SortDesc(s, key), key, v) == WithKey(s, key, v)
  {
    if s != [] {
      var init := s[..|s| - 1];
      SortDescStable(init, key, v);
      SortDescSorted(init, key);
      InsertDescWithKey(s[|s| - 1], SortDesc(init, key), key, v);
    }
  }

  /** Sorting what is already in order changes nothing. */
  lemma {:induction false} SortDescOfSorted<T>(s: seq<T>, key: T -> int)
    requires NonIncreasing(s, key)
    ensures SortDesc(s, key) == s
  {
    if s != [] {
      var init := s[..|s| - 1];
      SortDescOfSorted(init, key);
      InsertDescLast(s[|s| - 1], init, key);
      assert init + [s[|s| - 1]] == s;
    }
  }

  lemma {:induction false} InsertDescLast<T>(x: T, s: seq<T>, key: T -> int)
    requires forall i :: 0 <= i < |s| ==> key(s[i]) >= key(x)
    ensures InsertDesc(x, s, key) == s + [x]
  {
    if s != [] {
      InsertDescLast(x, s[1..], key);
      assert [s[0]] + (s[1..] + [x]) == s + [x];
    }
  }
}
