/** The append-only ledger (dao/transactions.go): entries are appended as
    they arrive and the store's own slice is sorted by timestamp, in place,
    whenever the log is read. */
module Transactions {
  import opened Domain

  // RewardTransactionByTimestamp: the sort.Interface view of the slice.

  /** The number of entries, each counted as often as it occurs. */
  function Len(t: seq<RewardTransaction>): (n: int)
    ensures n == |multiset(t)|
  {
    |t|
  }

  /** Strictly "before": entries with equal timestamps are not Less either way. */
  predicate Less(t: seq<RewardTransaction>, i: int, j: int)
    requires 0 <= i < |t| && 0 <= j < |t|
  {
    t[i].timestamp < t[j].timestamp
  }

  /** `Less` is `Before` on timestamps: a strict order in which exactly
      the entries with equal timestamps are unordered. */
  lemma LessIsStrict(t: seq<RewardTransaction>, i: int, j: int, k: int)
    requires 0 <= i < |t| && 0 <= j < |t| && 0 <= k < |t|
    ensures !Less(t, i, i)
    ensures Less(t, i, j) ==> !Less(t, j, i)
    ensures Less(t, i, j) && Less(t, j, k) ==> Less(t, i, k)
    ensures !Less(t, i, j) && !Less(t, j, i) <==> t[i].timestamp == t[j].timestamp
  {
  }

  /** The slice after exchanging positions `i` and `j`. */
  function Swap(t: seq<RewardTransaction>, i: int, j: int): (r: seq<RewardTransaction>)
    requires 0 <= i < |t| && 0 <= j < |t|
    ensures |r| == |t| && r[i] == t[j] && r[j] == t[i]
    ensures forall k :: 0 <= k < |t| && k != i && k != j ==> r[k] == t[k]
    ensures multiset(r) == multiset(t)
  {
    t[i := t[j]][j := t[i]]
  }

  /** Non-decreasing by timestamp; the order among equal timestamps is free. */
  ghost predicate SortedByTimestamp(t: seq<RewardTransaction>)
  {
    forall a, b :: 0 <= a < b < |t| ==> t[a].timestamp <= t[b].timestamp
  }

  /** The ordering `sort.Sort` establishes with `Less` and `Swap`. The
      algorithm is the insertion sort Go applies to short inputs; the
      contract promises only a sorted permutation, not stability, which is
      all `sort.Sort` promises. */
  method SortByTimestamp(data: seq<RewardTransaction>) returns (sorted: seq<RewardTransaction>)
    ensures SortedByTimestamp(sorted)
    ensures multiset(sorted) == multiset(data)
  {
    sorted := data;
    var n := Len(sorted);
    var i := 1;
    while i < n
      invariant |sorted| == n && 1 <= i
      invariant n > 0 ==> i <= n
      invariant multiset(sorted) == multiset(data)
      invariant forall a, b :: 0 <= a < b < i && b < n ==> sorted[a].timestamp <= sorted[b].timestamp
    {
      var j := i;
      while j > 0 && Less(sorted, j, j - 1)
        invariant 0 <= j <= i < n && |sorted| == n
        invariant multiset(sorted) == multiset(data)
        invariant forall a, b :: 0 <= a < b <= i && a != j && b != j ==> sorted[a].timestamp <= sorted[b].timestamp
        invariant forall b :: j < b <= i ==> sorted[j].timestamp <= sorted[b].timestamp
      {
        sorted := Swap(sorted, j, j - 1);
        j := j - 1;
      }
      i := i + 1;
    }
  }

  /** Strictly increasing by timestamp: no two entries share one. */
  ghost predicate StrictlyByTimestamp(t: seq<RewardTransaction>)
  {
    forall a, b :: 0 <= a < b < |t| ==> t[a].timestamp < t[b].timestamp
  }

  /** A sorted permutation of a strictly ordered log starts with its first
      entry. */
  lemma SameFirstEntry(r: seq<RewardTransaction>, s: seq<RewardTransaction>)
    requires SortedByTimestamp(r) && StrictlyByTimestamp(s)
    requires multiset(r) == multiset(s) && s != []
    ensures |r| == |s| && r[0] == s[0]
  {
    assert |r| == |multiset(r)| == |s|;
    assert r[0] in multiset(s);
    var k :| 0 <= k < |s| && s[k] == r[0];
    assert s[0] in multiset(r);
    var m :| 0 <= m < |r| && r[m] == s[0];
    assert r[0].timestamp <= r[m].timestamp;
    assert k == 0;
  }

  /** Dropping one shared first entry keeps two logs permutations of each
      other. */
  lemma SameRest(r: seq<RewardTransaction>, s: seq<RewardTransaction>)
    requires r != [] && s != [] && r[0] == s[0] && multiset(r) == multiset(s)
    ensures multiset(r[1..]) == multiset(s[1..])
  {
    assert r == [r[0]] + r[1..];
    assert s == [s[0]] + s[1..];
    assert multiset(r[1..]) == multiset(r) - multiset{r[0]};
    assert multiset(s[1..]) == multiset(s) - multiset{s[0]};
  }

  /** When no two entries share a timestamp the sorted view is unique:
      any sorted permutation of a strictly ordered log is that log. Only
      equal timestamps leave the order open. */
  lemma {:induction false} SortedViewUnique(r: seq<RewardTransaction>, s: seq<RewardTransaction>)
    requires SortedByTimestamp(r)
    requires StrictlyByTimestamp(s)
    requires multiset(r) == multiset(s)
    ensures r == s
    decreases |s|
  {
    if s == [] {
      assert |r| == |multiset(r)| == 0;
    } else {
      SameFirstEntry(r, s);
      SameRest(r, s);
      SortedViewUnique(r[1..], s[1..]);
      assert r == [r[0]] + r[1..] && s == [s[0]] + s[1..];
    }
  }

  /** Both orders of two entries with the same timestamp are sorted views of
      them: `sort.Sort` may return either. */
  lemma EqualTimestampsEitherOrder(x: RewardTransaction, y: RewardTransaction)
    requires x.timestamp == y.timestamp
    ensures SortedByTimestamp([x, y]) && SortedByTimestamp([y, x])
    ensures multiset([y, x]) == multiset([x, y])
  {
  }

  class LocalTransactionsStore {
    /** The store's slice: append order until the first read, sorted after it. */
    var cache: seq<RewardTransaction>
    /** Every entry appended so far, in append order. */
    ghost var history: seq<RewardTransaction>

    ghost predicate Valid()
      reads this
    {
      multiset(cache) == multiset(history)
    }

    constructor ()
      ensures Valid()
      ensures cache == [] && history == []
    {
      cache := [];
      history := [];
    }

    /** Appends at the end: every earlier entry stays where it was. */
    method AddTransaction(transaction: RewardTransaction)
      requires Valid()
      modifies this
      ensures Valid()
      ensures cache == old(cache) + [transaction]
      ensures history == old(history) + [transaction]
    {
      cache := cache + [transaction];
      history := history + [transaction];
    }

    /** Sorts the store's own slice by timestamp and returns it: the result
        holds exactly the entries appended so far, none lost or duplicated,
        and later appends go after this sorted prefix. */
    method GetTransactionLog() returns (log: seq<RewardTransaction>)
      requires Valid()
      modifies this
      ensures Valid() && history == old(history)
      ensures log == cache
      ensures SortedByTimestamp(log)
      ensures multiset(log) == multiset(old(cache)) == multiset(history)
    {
      cache := SortByTimestamp(cache);
      log := cache;
    }
  }
}
