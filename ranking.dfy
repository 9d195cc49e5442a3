/** The ordering used by `prioritized_previous_day_emails`
    (integrations/outlook.py:206-220): Python's stable `sorted(...,
    reverse=True)` on a key of (priority score, received time), where a missing
    or unreadable received time sorts as the earliest instant. */
module Ranking {
  import opened Wrappers

  /** The sort key: priority score first, received time second. */
  datatype RankKey = RankKey(score: int, received: Option<int>)

  /** `a < b` on received times, with no time below every actual time
      (the source substitutes `datetime.min`). */
  predicate TimeBefore(a: Option<int>, b: Option<int>) {
    match (a, b)
    case (None, Some(_)) => true
    case (Some(x), Some(y)) => x < y
    case _ => false
  }

  /** Lexicographic `a < b` on keys, as Python compares tuples. */
  predicate KeyBelow(a: RankKey, b: RankKey) {
    a.score < b.score || (a.score == b.score && TimeBefore(a.received, b.received))
  }

  /** `a >= b` on keys. */
  predicate AtLeast(a: RankKey, b: RankKey) {
    !KeyBelow(a, b)
  }

  /** Keys are totally ordered: two keys neither of which is below the other
      are equal, and "at least" is transitive. */
  lemma KeyOrderTotal(a: RankKey, b: RankKey, c: RankKey)
    ensures AtLeast(a, b) && AtLeast(b, a) ==> a == b
    ensures AtLeast(a, b) && AtLeast(b, c) ==> AtLeast(a, c)
    ensures AtLeast(a, b) || AtLeast(b, a)
  {
  }

  /** Each element's key is at least that of every later element. */
  predicate NonIncreasing<T>(s: seq<T>, key: T -> RankKey) {
    forall i, j :: 0 <= i < j < |s| ==> AtLeast(key(s[i]), key(s[j]))
  }

  /** The elements of `s` whose key is `k`, in the order of `s`. */
  function WithKey<T>(s: seq<T>, key: T -> RankKey, k: RankKey): seq<T> {
    if s == [] then []
    else (if key(s[0]) == k then [s[0]] else []) + WithKey(s[1..], key, k)
  }

  /** Places `x` after every element whose key is strictly greater, and so in
      front of the elements whose key equals its own. */
  function Insert<T>(x: T, s: seq<T>, key: T -> RankKey): (r: seq<T>)
    ensures |r| == |s| + 1
    ensures multiset(r) == multiset(s) + multiset{x}
  {
    if s == [] || AtLeast(key(x), key(s[0])) then [x] + s
    else
      assert s == [s[0]] + s[1..];
      [s[0]] + Insert(x, s[1..], key)
  }

  /** `sorted(s, key=key, reverse=True)` */
  function SortDescending<T>(s: seq<T>, key: T -> RankKey): (r: seq<T>)
    ensures |r| == |s|
    ensures multiset(r) == multiset(s)
  {
    if s == [] then []
    else
      assert s == [s[0]] + s[1..];
      Insert(s[0], SortDescending(s[1..], key), key)
  }

  lemma {:induction false} InsertBounded<T>(x: T, s: seq<T>, key: T -> RankKey, k: RankKey)
    requires AtLeast(k, key(x))
    requires forall i :: 0 <= i < |s| ==> AtLeast(k, key(s[i]))
    ensures forall i :: 0 <= i < |Insert(x, s, key)| ==> AtLeast(k, key(Insert(x, s, key)[i]))
  {
    if s != [] && !AtLeast(key(x), key(s[0])) {
      InsertBounded(x, s[1..], key, k);
    }
  }

  lemma {:induction false} InsertNonIncreasing<T>(x: T, s: seq<T>, key: T -> RankKey)
    requires NonIncreasing(s, key)
    ensures NonIncreasing(Insert(x, s, key), key)
  {
    if s == [] || AtLeast(key(x), key(s[0])) {
      forall j | 0 <= j < |s| ensures AtLeast(key(x), key(s[j])) {
        KeyOrderTotal(key(x), key(s[0]), key(s[j]));
      }
    } else {
      var rest := Insert(x, s[1..], key);
      InsertNonIncreasing(x, s[1..], key);
      KeyOrderTotal(key(x), key(s[0]), key(s[0]));
      InsertBounded(x, s[1..], key, key(s[0]));
      assert Insert(x, s, key) == [s[0]] + rest;
    }
  }

  /** Inserting `x` puts it in front of every element with the same key. */
  lemma {:induction false} InsertWithKey<T>(x: T, s: seq<T>, key: T -> RankKey, k: RankKey)
    ensures WithKey(Insert(x, s, key), key, k) == (if key(x) == k then [x] else []) + WithKey(s, key, k)
  {
    var r := Insert(x, s, key);
    if s == [] || AtLeast(key(x), key(s[0])) {
      assert r[1..] == s;
    } else {
      assert r[1..] == Insert(x, s[1..], key);
      InsertWithKey(x, s[1..], key, k);
      assert key(s[0]) != key(x);
    }
  }

  /** The result is ordered by non-increasing key. */
  lemma {:induction false} SortNonIncreasing<T>(s: seq<T>, key: T -> RankKey)
    ensures NonIncreasing(SortDescending(s, key), key)
  {
    if s != [] {
      SortNonIncreasing(s[1..], key);
      InsertNonIncreasing(s[0], SortDescending(s[1..], key), key);
    }
  }

  /** Stability: the elements sharing any one key keep their input order. */
  lemma {:induction false} SortStable<T>(s: seq<T>, key: T -> RankKey, k: RankKey)
    ensures WithKey(SortDescending(s, key), key, k) == WithKey(s, key, k)
  {
    if s != [] {
      SortStable(s[1..], key, k);
      InsertWithKey(s[0], SortDescending(s[1..], key), key, k);
    }
  }

  lemma {:induction false} WithKeyConcat<T>(a: seq<T>, b: seq<T>, key: T -> RankKey, k: RankKey)
    ensures WithKey(a + b, key, k) == WithKey(a, key, k) + WithKey(b, key, k)
  {
    if a == [] {
      assert a + b == b;
    } else {
      var ab := a + b;
      assert ab[0] == a[0] && ab[1..] == a[1..] + b;
      WithKeyConcat(a[1..], b, key, k);
    }
  }

  /** The first `n` elements of a descending sort are ordered, and the
      elements sharing a key among them are the first of that key's
      elements in the input. */
  lemma TopOfSortOrderedAndStable<T>(s: seq<T>, key: T -> RankKey, n: nat)
    requires n <= |s|
    ensures NonIncreasing(SortDescending(s, key)[..n], key)
    ensures forall k :: WithKey(SortDescending(s, key)[..n], key, k) <= WithKey(s, key, k)
  {
    var full := SortDescending(s, key);
    var top, rest := full[..n], full[n..];
    assert full == top + rest;
    SortNonIncreasing(s, key);
    forall k ensures WithKey(top, key, k) <= WithKey(s, key, k) {
      WithKeyConcat(top, rest, key, k);
      SortStable(s, key, k);
    }
  }

  /** An element counted in a sequence but not in its first `n` elements
      occurs after position `n`. */
  lemma InDropped<T>(s: seq<T>, n: nat, x: T)
    requires n <= |s|
    requires x in multiset(s) - multiset(s[..n])
    ensures exists j :: n <= j < |s| && s[j] == x
  {
    assert s == s[..n] + s[n..];
    assert multiset(s) == multiset(s[..n]) + multiset(s[n..]);
    assert x in s[n..];
    var j :| 0 <= j < |s[n..]| && s[n..][j] == x;
    assert s[n + j] == x;
  }

  /** In a sequence ordered by non-increasing key, nothing after position
      `n` has a greater key than anything before it. */
  lemma PrefixDominates<T>(full: seq<T>, key: T -> RankKey, n: nat)
    requires n <= |full|
    requires NonIncreasing(full, key)
    ensures multiset(full[..n]) <= multiset(full)
    ensures forall x, y ::
              (x in multiset(full) - multiset(full[..n]) && y in full[..n]) ==> AtLeast(key(y), key(x))
  {
    assert full == full[..n] + full[n..];
    assert multiset(full) == multiset(full[..n]) + multiset(full[n..]);
    forall x, y | x in multiset(full) - multiset(full[..n]) && y in full[..n]
      ensures AtLeast(key(y), key(x))
    {
      InDropped(full, n, x);
      var j :| n <= j < |full| && full[j] == x;
      var i :| 0 <= i < n && full[..n][i] == y;
      assert full[i] == y;
      assert AtLeast(key(full[i]), key(full[j]));
    }
  }

  /** The first `n` elements of a descending sort are drawn from the input,
      and no element left out has a greater key than one kept. */
  lemma TopOfSortSelectsGreatest<T>(s: seq<T>, key: T -> RankKey, n: nat)
    requires n <= |s|
    ensures multiset(SortDescending(s, key)[..n]) <= multiset(s)
    ensures forall x, y ::
              (x in multiset(s) - multiset(SortDescending(s, key)[..n])
               && y in SortDescending(s, key)[..n]) ==> AtLeast(key(y), key(x))
  {
    SortNonIncreasing(s, key);
    PrefixDominates(SortDescending(s, key), key, n);
  }
}
