/** The spend rule of `SpendPoints` (service/transactions.go) as functions:
    one scan step, the scan over the timestamp-ordered log, and what the
    scan guarantees. The service's loop is proved to compute `Run`. */
module Allocator {
  import opened Domain
  import opened Rewards

  /** The variables the scan updates: each payer's remaining spend balance,
      the points allocated from each payer, and the part of the request not
      yet allocated. */
  datatype ScanState = ScanState(spendBalance: map<PayerId, int>, allocation: map<PayerId, int>, remaining: int)

  /** `math.Min`; on integers below 2^53 in magnitude the float64 round trip is exact. */
  function Min(a: int, b: int): int
  {
    if a < b then a else b
  }

  /** The amount one entry contributes: the least of the payer's remaining
      spend balance, the entry's points and the remaining request. */
  function AmountToApply(balance: int, points: int, remaining: int): (amount: int)
    ensures amount <= balance && amount <= points && amount <= remaining
    ensures amount == balance || amount == points || amount == remaining
  {
    Min(Min(balance, points), remaining)
  }

  /** The state before the scan: every registered payer's current balance,
      a zero allocation for each, and the whole request outstanding. */
  function Initial(balances: map<PayerId, int>, numberOfPoints: int): ScanState
  {
    ScanState(balances, map p | p in balances :: 0, numberOfPoints)
  }

  /** One iteration of the scan. Only zero-point entries are skipped; a
      negative entry also goes through the `min` rule. */
  function Step(st: ScanState, tx: RewardTransaction): (next: ScanState)
    ensures tx.points == 0 ==> next == st
    ensures tx.points != 0 ==> next.remaining >= 0 && Lookup(next.spendBalance, tx.payer) >= 0
    ensures forall p :: Lookup(next.allocation, p) + Lookup(next.spendBalance, p)
                     == Lookup(st.allocation, p) + Lookup(st.spendBalance, p)
    ensures st.remaining - next.remaining == Lookup(next.allocation, tx.payer) - Lookup(st.allocation, tx.payer)
    ensures forall p :: p != tx.payer ==> Lookup(next.allocation, p) == Lookup(st.allocation, p)
    ensures forall p :: p != tx.payer ==> Lookup(next.spendBalance, p) == Lookup(st.spendBalance, p)
    ensures next.allocation.Keys == st.allocation.Keys + (if tx.points != 0 then {tx.payer} else {})
  {
    if tx.points == 0 then st
    else
      var balance := Lookup(st.spendBalance, tx.payer);
      var allocatedSoFar := Lookup(st.allocation, tx.payer);
      var amount := AmountToApply(balance, tx.points, st.remaining);
      ScanState(st.spendBalance[tx.payer := balance - amount],
                st.allocation[tx.payer := allocatedSoFar + amount],
                st.remaining - amount)
  }

  /** The scan: step through the log in order and stop right after the step
      that leaves the request at 0 (the check follows every entry, zero-point
      ones included). A request larger than what is available runs off the
      end of the log and is left partly unallocated; there is no error. */
  function Run(log: seq<RewardTransaction>, st: ScanState): (final: ScanState)
    decreases |log|
  {
    if log == [] then st
    else
      var next := Step(st, log[0]);
      if next.remaining == 0 then next else Run(log[1..], next)
  }

  /** The scan allocates only from payers that have an allocation entry
      already or an entry in the log, and never drops an entry. */
  lemma {:induction false} RunKeys(log: seq<RewardTransaction>, st: ScanState)
    ensures st.allocation.Keys <= Run(log, st).allocation.Keys <= st.allocation.Keys + PayersOf(log)
    decreases |log|
  {
    if log != [] {
      var next := Step(st, log[0]);
      assert PayersOf(log) == {log[0].payer} + PayersOf(log[1..]);
      if next.remaining != 0 {
        RunKeys(log[1..], next);
      }
    }
  }

  /** A nonzero entry's step, spelled out as the service's loop body performs it. */
  lemma StepOnNonZero(st: ScanState, tx: RewardTransaction)
    requires tx.points != 0
    ensures var balance := Lookup(st.spendBalance, tx.payer);
            var amount := Min(Min(balance, tx.points), st.remaining);
            Step(st, tx) == ScanState(st.spendBalance[tx.payer := balance - amount],
                                      st.allocation[tx.payer := Lookup(st.allocation, tx.payer) + amount],
                                      st.remaining - amount)
  {
  }

  /** `Run` from position `i` of a log: one step, then either stop or go on from `i + 1`. */
  lemma RunFrom(log: seq<RewardTransaction>, i: nat, st: ScanState)
    requires i < |log|
    ensures Run(log[i..], st) == (var next := Step(st, log[i]);
                                  if next.remaining == 0 then next else Run(log[i + 1..], next))
  {
  }

  /** The entries the scan does not skip. */
  function NonZero(log: seq<RewardTransaction>): seq<RewardTransaction>
  {
    if log == [] then [] else (if log[0].points != 0 then [log[0]] else []) + NonZero(log[1..])
  }

  // ----- Sums over maps -----

  ghost function Pick(keys: set<PayerId>): PayerId
    requires keys != {}
  {
    var k :| k in keys; k
  }

  /** The sum of the values of a map (the total of a balance or allocation map). */
  ghost function SumValues(m: map<PayerId, int>): int
    decreases |m|
  {
    if m == map[] then 0
    else
      var k := Pick(m.Keys);
      assert (m - {k}).Keys == m.Keys - {k};
      m[k] + SumValues(m - {k})
  }

  lemma {:induction false} SumValuesRemove(m: map<PayerId, int>, k: PayerId)
    requires k in m
    ensures SumValues(m) == m[k] + SumValues(m - {k})
    decreases |m|
  {
    var k' := Pick(m.Keys);
    assert (m - {k'}).Keys == m.Keys - {k'};
    assert (m - {k}).Keys == m.Keys - {k};
    if k' != k {
      SumValuesRemove(m - {k'}, k);
      SumValuesRemove(m - {k}, k');
      assert m - {k'} - {k} == m - {k} - {k'};
    }
  }

  lemma SumValuesUpdate(m: map<PayerId, int>, k: PayerId, v: int)
    ensures SumValues(m[k := v]) == SumValues(m) - Lookup(m, k) + v
  {
    SumValuesRemove(m[k := v], k);
    assert m[k := v] - {k} == m - {k};
    if k in m {
      SumValuesRemove(m, k);
    } else {
      assert m - {k} == m;
    }
  }

  lemma {:induction false} SumValuesZero(m: map<PayerId, int>)
    requires forall p :: p in m ==> m[p] == 0
    ensures SumValues(m) == 0
    decreases |m|
  {
    if m != map[] {
      var k := Pick(m.Keys);
      assert (m - {k}).Keys == m.Keys - {k};
      SumValuesZero(m - {k});
    }
  }

  /** When every payer's balance is the sum of its own entries and every
      payer of the log is in the map, the balances add up to the log's total. */
  lemma {:induction false} SumOfBalances(log: seq<RewardTransaction>, balances: map<PayerId, int>)
    requires forall p :: p in balances ==> balances[p] == SumFor(log, p)
    requires PayersOf(log) <= balances.Keys
    ensures SumValues(balances) == Total(log)
    decreases |log|
  {
    if log == [] {
      SumValuesZero(balances);
    } else {
      var t := log[0];
      var rest := log[1..];
      assert t.payer in PayersOf(log);
      var smaller := balances[t.payer := balances[t.payer] - t.points];
      assert PayersOf(rest) <= PayersOf(log);
      SumOfBalances(rest, smaller);
      SumValuesUpdate(balances, t.payer, balances[t.payer] - t.points);
    }
  }

  // ----- What the scan guarantees -----

  /** Per payer, allocation plus remaining spend balance never changes. */
  lemma {:induction false} RunConservesEachPayer(log: seq<RewardTransaction>, st: ScanState)
    ensures forall p :: Lookup(Run(log, st).allocation, p) + Lookup(Run(log, st).spendBalance, p)
                     == Lookup(st.allocation, p) + Lookup(st.spendBalance, p)
    decreases |log|
  {
    if log != [] {
      var next := Step(st, log[0]);
      if next.remaining != 0 {
        RunConservesEachPayer(log[1..], next);
      }
    }
  }

  /** The request that is no longer outstanding is exactly what was allocated. */
  lemma {:induction false} RunConservesRequest(log: seq<RewardTransaction>, st: ScanState)
    ensures Run(log, st).remaining + SumValues(Run(log, st).allocation) == st.remaining + SumValues(st.allocation)
    decreases |log|
  {
    if log != [] {
      var tx := log[0];
      var next := Step(st, tx);
      if tx.points != 0 {
        SumValuesUpdate(st.allocation, tx.payer, Lookup(next.allocation, tx.payer));
        assert next.allocation == st.allocation[tx.payer := Lookup(next.allocation, tx.payer)];
      }
      if next.remaining != 0 {
        RunConservesRequest(log[1..], next);
      }
    }
  }

  /** The remaining request and the remaining spend balances stay non-negative. */
  lemma {:induction false} RunKeepsNonNegative(log: seq<RewardTransaction>, st: ScanState)
    requires forall p :: Lookup(st.spendBalance, p) >= 0
    ensures st.remaining >= 0 ==> Run(log, st).remaining >= 0
    ensures forall p :: Lookup(Run(log, st).spendBalance, p) >= 0
    decreases |log|
  {
    if log != [] {
      var next := Step(st, log[0]);
      assert forall p :: Lookup(next.spendBalance, p) >= 0 by {
        forall p ensures Lookup(next.spendBalance, p) >= 0 {
          if p != log[0].payer || log[0].points == 0 {
            assert Lookup(next.spendBalance, p) == Lookup(st.spendBalance, p);
          }
        }
      }
      if next.remaining != 0 {
        RunKeepsNonNegative(log[1..], next);
      }
    }
  }

  /** While the request is outstanding, zero-point entries have no effect:
      the scan gives the same result on the log without them. */
  lemma {:induction false} RunIgnoresZeroEntries(log: seq<RewardTransaction>, st: ScanState)
    requires st.remaining != 0
    ensures Run(log, st) == Run(NonZero(log), st)
    decreases |log|
  {
    if log != [] {
      var rest := log[1..];
      RunIgnoresZeroEntries(rest, st);
      if log[0].points != 0 {
        var next := Step(st, log[0]);
        assert NonZero(log) == [log[0]] + NonZero(rest);
        assert NonZero(log)[1..] == NonZero(rest);
        if next.remaining != 0 {
          RunIgnoresZeroEntries(rest, next);
        }
      } else {
        assert NonZero(log) == NonZero(rest);
      }
    }
  }

  /** Once the request reaches 0 the scan has stopped: entries after that
      point are never read. */
  lemma {:induction false} RunStopsAtZero(log: seq<RewardTransaction>, extra: seq<RewardTransaction>, st: ScanState)
    requires log != []
    requires Run(log, st).remaining == 0
    ensures Run(log + extra, st) == Run(log, st)
    decreases |log|
  {
    assert (log + extra)[0] == log[0];
    var next := Step(st, log[0]);
    if next.remaining != 0 {
      assert log[1..] != [];
      assert (log + extra)[1..] == log[1..] + extra;
      RunStopsAtZero(log[1..], extra, next);
    }
  }

  lemma {:induction false} PositiveLogSums(log: seq<RewardTransaction>, p: PayerId)
    requires forall i :: 0 <= i < |log| ==> log[i].points > 0
    ensures SumFor(log, p) >= 0 && Total(log) >= 0
    decreases |log|
  {
    if log != [] {
      PositiveLogSums(log[1..], p);
    }
  }

  /** On a log of purchases only, where each spend balance is the sum of
      that payer's entries, the scan leaves outstanding exactly the part of
      the request that exceeds the log's total. */
  lemma {:induction false} RunDrainsPositiveLog(log: seq<RewardTransaction>, st: ScanState)
    requires forall i :: 0 <= i < |log| ==> log[i].points > 0
    requires forall p :: Lookup(st.spendBalance, p) == SumFor(log, p)
    requires st.remaining >= 0
    ensures Run(log, st).remaining == if st.remaining <= Total(log) then 0 else st.remaining - Total(log)
    decreases |log|
  {
    if log != [] {
      var t := log[0];
      var rest := log[1..];
      PositiveLogSums(rest, t.payer);
      var next := Step(st, t);
      if next.remaining != 0 {
        assert next.remaining == st.remaining - t.points;
        assert forall p :: Lookup(next.spendBalance, p) == SumFor(rest, p);
        RunDrainsPositiveLog(rest, next);
      }
    }
  }

  /** When every entry is a purchase, a request for N points allocates
      min(N, total of all balances): all of it when enough is available,
      everything available otherwise. */
  lemma SpendAllocatesMin(log: seq<RewardTransaction>, balances: map<PayerId, int>, numberOfPoints: int)
    requires forall i :: 0 <= i < |log| ==> log[i].points > 0
    requires forall p :: p in balances ==> balances[p] == SumFor(log, p)
    requires PayersOf(log) <= balances.Keys
    requires numberOfPoints >= 0
    ensures SumValues(Run(log, Initial(balances, numberOfPoints)).allocation) == Min(numberOfPoints, SumValues(balances))
  {
    var st := Initial(balances, numberOfPoints);
    RunDrainsPositiveLog(log, st);
    RunConservesRequest(log, st);
    SumValuesZero(st.allocation);
    SumOfBalances(log, balances);
  }

  /** The spend as the service performs it: the scan walks a reordering of
      the ledger and starts from each registered payer's ledger sum. The
      allocation has exactly the registered payers as keys; no payer is
      allocated more than its balance when balances are non-negative; and
      on a ledger of purchases the allocations add up to min(N, total). */
  lemma SpendOnLedger(txLog: seq<RewardTransaction>, history: seq<RewardTransaction>,
                      balances: map<PayerId, int>, numberOfPoints: int)
    requires multiset(txLog) == multiset(history)
    requires PayersOf(history) <= balances.Keys
    requires forall p :: p in balances ==> balances[p] == SumFor(history, p)
    ensures var allocation := Run(txLog, Initial(balances, numberOfPoints)).allocation;
            && allocation.Keys == balances.Keys
            && ((forall p :: p in balances ==> balances[p] >= 0) ==>
                  forall p :: p in allocation ==> balances[p] - allocation[p] >= 0)
            && (numberOfPoints >= 0 && (forall i :: 0 <= i < |history| ==> history[i].points > 0) ==>
                  SumValues(allocation) == Min(numberOfPoints, SumValues(balances)))
  {
    var init := Initial(balances, numberOfPoints);
    var final := Run(txLog, init);
    PayersOfPermutation(txLog, history);
    RunKeys(txLog, init);
    RunConservesEachPayer(txLog, init);
    if forall p :: p in balances ==> balances[p] >= 0 {
      RunKeepsNonNegative(txLog, init);
      forall p | p in final.allocation ensures balances[p] - final.allocation[p] >= 0 {
        assert Lookup(final.allocation, p) + Lookup(final.spendBalance, p) == Lookup(init.allocation, p) + Lookup(init.spendBalance, p);
      }
    }
    if numberOfPoints >= 0 && forall i :: 0 <= i < |history| ==> history[i].points > 0 {
      forall i | 0 <= i < |txLog| ensures txLog[i].points > 0 {
        assert txLog[i] in multiset(history);
      }
      forall p | p in balances ensures balances[p] == SumFor(txLog, p) {
        SumForPermutation(txLog, history, p);
      }
      SpendAllocatesMin(txLog, balances, numberOfPoints);
    }
  }

  /** The spend of the service's own test: A earns 500, then B earns 349 and
      251; spending 850 takes 500 from A and 350 from B. */
  lemma SpendExample850()
    ensures var log := [RewardTransaction("account-1", 500, 1), RewardTransaction("account-2", 349, 2),
                        RewardTransaction("account-2", 251, 3)];
            var final := Run(log, Initial(map["account-1" := 500, "account-2" := 600], 850));
            final.allocation == map["account-1" := 500, "account-2" := 350] && final.remaining == 0
  {
  }

  /** A spend entry re-enters the scan: after A earned 10 and 5 of them were
      spent, a request for 6 first takes 5 from the purchase and then gives
      them back at the negative entry, so A is allocated nothing and all 6
      points stay outstanding although A holds 5. */
  lemma SpendAfterEarlierSpend()
    ensures var log := [RewardTransaction("A", 10, 1), RewardTransaction("A", -5, 2)];
            var final := Run(log, Initial(map["A" := 5], 6));
            final.allocation == map["A" := 0] && final.remaining == 6
  {
  }
}
