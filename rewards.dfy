/** The running-balance index (dao/rewards.go): one points total per payer,
    kept up to date as ledger entries arrive, together with the functions
    that say what such a total must be. */
module Rewards {
  import opened Domain

  /** Reading a Go `map[string]int`: a missing key reads as 0. */
  function Lookup(m: map<PayerId, int>, p: PayerId): int
  {
    if p in m then m[p] else 0
  }

  /** The points of the entries of `log` that belong to payer `p`. */
  function SumFor(log: seq<RewardTransaction>, p: PayerId): (sum: int)
    ensures p !in PayersOf(log) ==> sum == 0
  {
    if log == [] then 0
    else
      assert PayersOf(log[1..]) <= PayersOf(log);
      (if log[0].payer == p then log[0].points else 0) + SumFor(log[1..], p)
  }

  /** The points of all entries of `log`, whoever the payer. */
  function Total(log: seq<RewardTransaction>): int
  {
    if log == [] then 0 else log[0].points + Total(log[1..])
  }

  lemma {:induction false} SumForConcat(a: seq<RewardTransaction>, b: seq<RewardTransaction>, p: PayerId)
    ensures SumFor(a + b, p) == SumFor(a, p) + SumFor(b, p)
  {
    if a == [] {
      assert a + b == b;
    } else {
      assert (a + b)[1..] == a[1..] + b;
      SumForConcat(a[1..], b, p);
    }
  }

  /** Taking the entry at index `j` out of a log takes its points out of its payer's sum. */
  lemma SumForRemoveAt(b: seq<RewardTransaction>, j: nat, p: PayerId)
    requires j < |b|
    ensures SumFor(b, p) == (if b[j].payer == p then b[j].points else 0) + SumFor(b[..j] + b[j + 1..], p)
  {
    assert b == b[..j] + ([b[j]] + b[j + 1..]);
    SumForConcat(b[..j], [b[j]] + b[j + 1..], p);
    SumForConcat([b[j]], b[j + 1..], p);
    SumForConcat(b[..j], b[j + 1..], p);
    assert [b[j]][1..] == [];
  }

  lemma MultisetRemoveAt(b: seq<RewardTransaction>, j: nat)
    requires j < |b|
    ensures multiset(b[..j] + b[j + 1..]) == multiset(b) - multiset{b[j]}
  {
    assert b == b[..j] + [b[j]] + b[j + 1..];
  }

  /** Matching the first entry of `a` with an equal entry of its
      permutation `b` leaves two logs that are permutations of each other. */
  lemma PermutationMinusFirst(a: seq<RewardTransaction>, b: seq<RewardTransaction>, j: nat)
    requires multiset(a) == multiset(b)
    requires a != [] && j < |b| && b[j] == a[0]
    ensures multiset(a[1..]) == multiset(b[..j] + b[j + 1..])
  {
    assert a == [a[0]] + a[1..];
    assert multiset(a[1..]) == multiset(a) - multiset{a[0]};
    MultisetRemoveAt(b, j);
  }

  /** A payer's sum depends only on which entries the log holds, not on
      their order: the sorted view of the ledger gives the same balances. */
  lemma {:induction false} SumForPermutation(a: seq<RewardTransaction>, b: seq<RewardTransaction>, p: PayerId)
    requires multiset(a) == multiset(b)
    ensures SumFor(a, p) == SumFor(b, p)
    decreases |a|
  {
    if a == [] {
      assert |b| == |multiset(b)| == 0;
    } else {
      assert a[0] in multiset(b);
      var j :| 0 <= j < |b| && b[j] == a[0];
      PermutationMinusFirst(a, b, j);
      SumForPermutation(a[1..], b[..j] + b[j + 1..], p);
      SumForRemoveAt(b, j, p);
    }
  }

  /** Two logs holding the same entries name the same payers. */
  lemma PayersOfPermutation(a: seq<RewardTransaction>, b: seq<RewardTransaction>)
    requires multiset(a) == multiset(b)
    ensures PayersOf(a) == PayersOf(b)
  {
    forall p | p in PayersOf(a) ensures p in PayersOf(b) {
      var i :| 0 <= i < |a| && a[i].payer == p;
      assert a[i] in multiset(b);
    }
    forall p | p in PayersOf(b) ensures p in PayersOf(a) {
      var i :| 0 <= i < |b| && b[i].payer == p;
      assert b[i] in multiset(a);
    }
  }

  lemma PayersOfConcat(a: seq<RewardTransaction>, b: seq<RewardTransaction>)
    ensures PayersOf(a + b) == PayersOf(a) + PayersOf(b)
  {
    forall p | p in PayersOf(a + b) ensures p in PayersOf(a) + PayersOf(b) {
      var i :| 0 <= i < |a + b| && (a + b)[i].payer == p;
      if i >= |a| {
        assert b[i - |a|].payer == p;
      }
    }
    forall p | p in PayersOf(b) ensures p in PayersOf(a + b) {
      var i :| 0 <= i < |b| && b[i].payer == p;
      assert (a + b)[|a| + i] == b[i];
    }
    forall p | p in PayersOf(a) ensures p in PayersOf(a + b) {
      var i :| 0 <= i < |a| && a[i].payer == p;
      assert (a + b)[i] == a[i];
    }
  }

  /** The index that replaying `history` into an empty store produces: the
      last entry's points are added to its payer's total, starting from 0. */
  function Totals(history: seq<RewardTransaction>): map<PayerId, int>
  {
    if history == [] then map[]
    else
      var before := Totals(history[..|history| - 1]);
      var last := history[|history| - 1];
      before[last.payer := Lookup(before, last.payer) + last.points]
  }

  /** Replaying a log tracks exactly the payers named in it, each with the
      sum of its own entries. */
  lemma {:induction false} TotalsSum(history: seq<RewardTransaction>)
    ensures Totals(history).Keys == PayersOf(history)
    ensures forall p :: p in Totals(history) ==> Totals(history)[p] == SumFor(history, p)
    decreases |history|
  {
    if history != [] {
      var earlier := history[..|history| - 1];
      var last := history[|history| - 1];
      TotalsSum(earlier);
      assert history == earlier + [last];
      assert PayersOf(history) == PayersOf(earlier) + {last.payer};
      forall p ensures SumFor(history, p) == SumFor(earlier, p) + SumFor([last], p) {
        SumForConcat(earlier, [last], p);
      }
    }
  }

  /** Reading the replayed index the Go way (missing key as 0) gives the
      payer's sum whether or not it is tracked. */
  lemma TotalsLookup(history: seq<RewardTransaction>, p: PayerId)
    ensures Lookup(Totals(history), p) == SumFor(history, p)
  {
    TotalsSum(history);
  }

  /** Replaying more entries never untracks a payer: the store has no removal. */
  lemma {:induction false} TrackedStaysTracked(history: seq<RewardTransaction>, more: seq<RewardTransaction>)
    ensures Totals(history).Keys <= Totals(history + more).Keys
  {
    TotalsSum(history);
    TotalsSum(history + more);
    forall p | p in PayersOf(history) ensures p in PayersOf(history + more) {
      var i :| 0 <= i < |history| && history[i].payer == p;
      assert (history + more)[i] == history[i];
    }
  }

  class LocalRewardsStore {
    /** The running total of every payer referenced so far. */
    var cache: map<PayerId, int>
    /** Every entry added so far, in the order it was added. */
    ghost var history: seq<RewardTransaction>

    ghost predicate Valid()
      reads this
    {
      cache == Totals(history)
    }

    constructor ()
      ensures Valid()
      ensures cache == map[] && history == []
    {
      cache := map[];
      history := [];
    }

    /** Adds the entry's points to its payer's total, starting from 0 when
        the payer was not tracked; every other total stays as it was. */
    method AddTransaction(transaction: RewardTransaction)
      requires Valid()
      modifies this
      ensures Valid()
      ensures history == old(history) + [transaction]
      ensures transaction.payer in cache
      ensures cache[transaction.payer] == Lookup(old(cache), transaction.payer) + transaction.points
      ensures forall p :: p != transaction.payer ==> (p in cache <==> p in old(cache))
      ensures forall p :: p != transaction.payer && p in cache ==> cache[p] == old(cache)[p]
    {
      var currentProgress := 0;
      if transaction.payer in cache {
        currentProgress := cache[transaction.payer];
      }
      cache := cache[transaction.payer := currentProgress + transaction.points];
      history := history + [transaction];
      assert history[..|history| - 1] == old(history);
    }

    /** The tracked total of `payerId`, or nil (None) when no entry was ever
        added for it; a tracked total of 0 is a different answer. */
    function GetPointsForPayer(payerId: PayerId): (points: Option<int>)
      reads this
      requires Valid()
      ensures points.None? <==> payerId !in PayersOf(history)
      ensures points.Some? ==> points.value == SumFor(history, payerId)
    {
      TotalsSum(history);
      if payerId in cache then Some(cache[payerId]) else None
    }
  }
}
