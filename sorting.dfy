/** Kotlin's stable `sortBy` / `sortedBy` / `sortedByDescending`, stated once
    over keys that are sequences of integers compared lexicographically (a
    shorter prefix first). A string key is its sequence of character codes,
    which is how `String.compareTo` orders ASCII text; an integer key `k` is
    `[k]` ascending and `[-k]` descending. */
module Sorting {

  /** Strict lexicographic order on integer sequences. */
  predicate LexLt(a: seq<int>, b: seq<int>)
    decreases |a|
  {
    if a == [] then b != []
    else if b == [] then false
    else if a[0] != b[0] then a[0] < b[0]
    else LexLt(a[1..], b[1..])
  }

  lemma {:induction false} LexLtIrreflexive(a: seq<int>)
    ensures !LexLt(a, a)
    decreases |a|
  {
    if a != [] { LexLtIrreflexive(a[1..]); }
  }

  lemma {:induction false} LexLtTransitive(a: seq<int>, b: seq<int>, c: seq<int>)
    requires LexLt(a, b) && LexLt(b, c)
    ensures LexLt(a, c)
    decreases |a|
  {
    if a != [] && b != [] && c != [] && a[0] == b[0] && b[0] == c[0] {
      LexLtTransitive(a[1..], b[1..], c[1..]);
    }
  }

  lemma {:induction false} LexLtTotal(a: seq<int>, b: seq<int>)
    ensures a == b || LexLt(a, b) || LexLt(b, a)
    decreases |a|
  {
    if a != [] && b != [] && a[0] == b[0] {
      LexLtTotal(a[1..], b[1..]);
      if a[1..] == b[1..] {
        assert a == [a[0]] + a[1..] && b == [b[0]] + b[1..];
      }
    }
  }

  /** "Not after" is transitive. */
  lemma NotLtTransitive(a: seq<int>, b: seq<int>, c: seq<int>)
    requires !LexLt(b, a) && !LexLt(c, b)
    ensures !LexLt(c, a)
  {
    LexLtTotal(a, b);
    LexLtTotal(b, c);
    if LexLt(c, a) {
      if a == b { } else if b == c { } else {
        LexLtTransitive(a, b, c);
        LexLtTransitive(c, a, b);
        LexLtIrreflexive(b);
        LexLtTransitive(b, c, b);
      }
    }
  }

  ghost predicate SortedBy<T>(s: seq<T>, key: T -> seq<int>) {
    forall i, j :: 0 <= i < j < |s| ==> !LexLt(key(s[j]), key(s[i]))
  }

  /** The elements of `s` whose key is `k`, in their order in `s`. */
  function WithKey<T>(s: seq<T>, key: T -> seq<int>, k: seq<int>): seq<T> {
    if s == [] then []
    else WithKey(s[..|s| - 1], key, k) + (if key(s[|s| - 1]) == k then [s[|s| - 1]] else [])
  }

  /** Puts `x` after every trailing element its key is not below. */
  function Insert<T>(s: seq<T>, x: T, key: T -> seq<int>): (r: seq<T>)
    ensures |r| == |s| + 1
  {
    if s == [] || !LexLt(key(x), key(s[|s| - 1])) then s + [x]
    else Insert(s[..|s| - 1], x, key) + [s[|s| - 1]]
  }

  /** Stable insertion sort by `key`. */
  function SortByKey<T>(s: seq<T>, key: T -> seq<int>): (r: seq<T>)
    ensures |r| == |s|
  {
    if s == [] then [] else Insert(SortByKey(s[..|s| - 1], key), s[|s| - 1], key)
  }

  lemma {:induction false} InsertPermutes<T>(s: seq<T>, x: T, key: T -> seq<int>)
    ensures multiset(Insert(s, x, key)) == multiset(s) + multiset{x}
  {
    if s != [] && LexLt(key(x), key(s[|s| - 1])) {
      InsertPermutes(s[..|s| - 1], x, key);
      assert s == s[..|s| - 1] + [s[|s| - 1]];
    }
  }

  lemma {:induction false} InsertSorted<T>(s: seq<T>, x: T, key: T -> seq<int>)
    requires SortedBy(s, key)
    ensures SortedBy(Insert(s, x, key), key)
  {
    var r := Insert(s, x, key);
    if s == [] {
    } else if !LexLt(key(x), key(s[|s| - 1])) {
      forall i, j | 0 <= i < j < |r| ensures !LexLt(key(r[j]), key(r[i])) {
        if j == |s| && i < |s| - 1 {
          NotLtTransitive(key(s[i]), key(s[|s| - 1]), key(x));
        }
      }
    } else {
      var init, last := s[..|s| - 1], s[|s| - 1];
      assert SortedBy(init, key);
      InsertSorted(init, x, key);
      var ins := Insert(init, x, key);
      InsertPermutes(init, x, key);
      forall i | 0 <= i < |ins| ensures !LexLt(key(last), key(ins[i])) {
        assert ins[i] in multiset(ins);
        if ins[i] == x {
          LexLtTotal(key(x), key(last));
          if LexLt(key(last), key(x)) { LexLtTransitive(key(x), key(last), key(x)); LexLtIrreflexive(key(x)); }
        } else {
          assert ins[i] in multiset(init);
          var k :| 0 <= k < |init| && init[k] == ins[i];
          assert s[k] == ins[i];
        }
      }
      assert r == ins + [last];
    }
  }

  lemma {:induction false} WithKeyAppend<T>(a: seq<T>, b: seq<T>, key: T -> seq<int>, k: seq<int>)
    ensures WithKey(a + b, key, k) == WithKey(a, key, k) + WithKey(b, key, k)
    decreases |b|
  {
    if b != [] {
      assert (a + b)[..|a + b| - 1] == a + b[..|b| - 1];
      WithKeyAppend(a, b[..|b| - 1], key, k);
    } else {
      assert a + b == a;
    }
  }

  /** Inserting `x` keeps the relative order of every key class and puts `x`
      last among the elements with its key. */
  lemma {:induction false} InsertStable<T>(s: seq<T>, x: T, key: T -> seq<int>, k: seq<int>)
    ensures WithKey(Insert(s, x, key), key, k) == WithKey(s, key, k) + WithKey([x], key, k)
  {
    WithKeyAppend(s, [x], key, k);
    if s != [] && LexLt(key(x), key(s[|s| - 1])) {
      var init, last := s[..|s| - 1], s[|s| - 1];
      InsertStable(init, x, key, k);
      WithKeyAppend(Insert(init, x, key), [last], key, k);
      WithKeyAppend(init, [last], key, k);
      assert init + [last] == s;
      assert [x][..0] == [] && [last][..0] == [];
      if key(x) == k && key(last) == k { LexLtIrreflexive(k); }
    }
  }

  /** `SortByKey` is sorted by key, a permutation of its input, and stable:
      the elements of each key class appear in their original order. */
  lemma {:induction false} SortByKeyCorrect<T>(s: seq<T>, key: T -> seq<int>)
    ensures SortedBy(SortByKey(s, key), key)
    ensures multiset(SortByKey(s, key)) == multiset(s)
    ensures forall k :: WithKey(SortByKey(s, key), key, k) == WithKey(s, key, k)
  {
    if s != [] {
      var init, last := s[..|s| - 1], s[|s| - 1];
      SortByKeyCorrect(init, key);
      InsertSorted(SortByKey(init, key), last, key);
      InsertPermutes(SortByKey(init, key), last, key);
      assert s == init + [last];
      forall k ensures WithKey(SortByKey(s, key), key, k) == WithKey(s, key, k) {
        InsertStable(SortByKey(init, key), last, key, k);
        WithKeyAppend(init, [last], key, k);
        assert [last][..0] == [];
      }
    }
  }
}
