/** LocalTransactionService (service/transactions.go): registers payers,
    records purchases in the ledger and the balance index, and spends points
    across payers oldest entry first, writing one compensating entry per
    payer. The clock is a parameter: `now` stands for `time.Now()`. */
module Service {
  import opened Domain
  import opened Rewards
  import opened Transactions
  import opened Accounts
  import opened Allocator

  /** `added` holds one entry per payer of `payers`, in some order, each
      taking that payer's allocation back out (`-allocation[p]`, zero
      included) and stamped `now`: the last entry compensates one of the
      payers, and the entries before it compensate the others. */
  ghost predicate CompensatesFor(added: seq<RewardTransaction>, allocation: map<PayerId, int>, payers: set<PayerId>, now: int)
    decreases |added|
  {
    if added == [] then payers == {}
    else
      var last := added[|added| - 1];
      && last.payer in payers && last.payer in allocation
      && last == RewardTransaction(last.payer, -allocation[last.payer], now)
      && CompensatesFor(added[..|added| - 1], allocation, payers - {last.payer}, now)
  }

  /** `plan` holds one element per payer of `payers`, in some order: the
      registered account and the negated allocation. */
  ghost predicate PlanFor(plan: seq<RewardsSpendAllocation>, allocation: map<PayerId, int>, payers: set<PayerId>,
                          accounts: map<PayerId, PayerAccount>)
    decreases |plan|
  {
    if plan == [] then payers == {}
    else
      var last := plan[|plan| - 1];
      && last.payer.Some?
      && var id := last.payer.value.id;
      && id in payers && id in allocation && id in accounts
      && last == RewardsSpendAllocation(Some(accounts[id]), -allocation[id])
      && PlanFor(plan[..|plan| - 1], allocation, payers - {id}, accounts)
  }

  lemma AppendAssoc(a: seq<RewardTransaction>, b: seq<RewardTransaction>, x: RewardTransaction)
    ensures a + b + [x] == a + (b + [x])
  {
  }

  /** Crediting one more payer extends the compensating entries by one. */
  lemma CompensatesForStep(added: seq<RewardTransaction>, allocation: map<PayerId, int>, payers: set<PayerId>,
                           now: int, p: PayerId)
    requires CompensatesFor(added, allocation, payers, now)
    requires p in allocation && p !in payers
    ensures CompensatesFor(added + [RewardTransaction(p, -allocation[p], now)], allocation, payers + {p}, now)
  {
  }

  /** Planning one more payer extends the plan by one. */
  lemma PlanForStep(plan: seq<RewardsSpendAllocation>, allocation: map<PayerId, int>, payers: set<PayerId>,
                    accounts: map<PayerId, PayerAccount>, p: PayerId)
    requires PlanFor(plan, allocation, payers, accounts)
    requires p in allocation && p in accounts && accounts[p].id == p && p !in payers
    ensures PlanFor(plan + [RewardsSpendAllocation(Some(accounts[p]), -allocation[p])], allocation, payers + {p}, accounts)
  {
  }

  /** The compensating entries name exactly the credited payers, one entry
      each, and each entry is `-allocation[p]` for its payer `p`, stamped `now`. */
  lemma {:induction false} CompensationShape(added: seq<RewardTransaction>, allocation: map<PayerId, int>,
                                             payers: set<PayerId>, now: int)
    requires CompensatesFor(added, allocation, payers, now)
    ensures |added| == |payers| && PayersOf(added) == payers && payers <= allocation.Keys
    ensures forall i :: 0 <= i < |added| ==>
              added[i].payer in allocation && added[i] == RewardTransaction(added[i].payer, -allocation[added[i].payer], now)
    decreases |added|
  {
    if added != [] {
      var init, last := added[..|added| - 1], added[|added| - 1];
      CompensationShape(init, allocation, payers - {last.payer}, now);
      assert added == init + [last];
      PayersOfConcat(init, [last]);
      assert PayersOf([last]) == {last.payer};
    }
  }

  /** The compensating entries take exactly each payer's allocation back out. */
  lemma {:induction false} CompensationSum(added: seq<RewardTransaction>, allocation: map<PayerId, int>,
                                           payers: set<PayerId>, now: int, p: PayerId)
    requires CompensatesFor(added, allocation, payers, now)
    ensures SumFor(added, p) == if p in payers then -Lookup(allocation, p) else 0
    decreases |added|
  {
    if added != [] {
      var init, last := added[..|added| - 1], added[|added| - 1];
      CompensationSum(init, allocation, payers - {last.payer}, now, p);
      assert added == init + [last];
      SumForConcat(init, [last], p);
    }
  }

  /** Every payer of the allocation has its compensating entry. */
  lemma CompensationCoversEveryPayer(added: seq<RewardTransaction>, allocation: map<PayerId, int>, now: int)
    requires CompensatesFor(added, allocation, allocation.Keys, now)
    ensures forall p :: p in allocation ==> RewardTransaction(p, -allocation[p], now) in added
  {
    CompensationShape(added, allocation, allocation.Keys, now);
    forall p | p in allocation ensures RewardTransaction(p, -allocation[p], now) in added {
      var i :| 0 <= i < |added| && added[i].payer == p;
    }
  }

  /** The plan names each planned payer once, with its registered account
      and its negated allocation. */
  lemma {:induction false} PlanShape(plan: seq<RewardsSpendAllocation>, allocation: map<PayerId, int>,
                                     payers: set<PayerId>, accounts: map<PayerId, PayerAccount>)
    requires PlanFor(plan, allocation, payers, accounts)
    ensures |plan| == |payers|
    ensures forall p :: p in payers ==> p in accounts && p in allocation && RewardsSpendAllocation(Some(accounts[p]), -allocation[p]) in plan
    ensures forall i :: 0 <= i < |plan| ==>
              && plan[i].payer.Some? && plan[i].payer.value.id in payers && plan[i].payer.value.id in accounts
              && plan[i] == RewardsSpendAllocation(Some(accounts[plan[i].payer.value.id]), -allocation[plan[i].payer.value.id])
    decreases |plan|
  {
    if plan != [] {
      var init, last := plan[..|plan| - 1], plan[|plan| - 1];
      PlanShape(init, allocation, payers - {last.payer.value.id}, accounts);
      assert plan == init + [last];
    }
  }

  /** Replaying the compensating entries after a ledger lowers exactly the
      allocated payers' totals, each by its allocation, and tracks them all. */
  lemma CreditedTotals(history: seq<RewardTransaction>, added: seq<RewardTransaction>,
                       allocation: map<PayerId, int>, now: int)
    requires CompensatesFor(added, allocation, allocation.Keys, now)
    ensures Totals(history + added).Keys == Totals(history).Keys + allocation.Keys
    ensures forall p :: Lookup(Totals(history + added), p) == Lookup(Totals(history), p) - Lookup(allocation, p)
  {
    TotalsSum(history);
    TotalsSum(history + added);
    forall p ensures Lookup(Totals(history + added), p) == Lookup(Totals(history), p) - Lookup(allocation, p) {
      SumForConcat(history, added, p);
      CompensationSum(added, allocation, allocation.Keys, now, p);
    }
    PayersOfConcat(history, added);
    CompensationShape(added, allocation, allocation.Keys, now);
  }

  /** The replayed index holds every registered payer's ledger sum, reading
      a missing payer as 0. */
  lemma TotalsGiveBalances(history: seq<RewardTransaction>, balances: map<PayerId, int>)
    requires forall p :: p in balances ==> balances[p] == SumFor(history, p)
    ensures forall p :: p in balances ==> Lookup(Totals(history), p) == balances[p]
  {
    forall p | p in balances ensures Lookup(Totals(history), p) == balances[p] {
      TotalsLookup(history, p);
    }
  }

  /** After the compensating entries each payer's total is its balance
      before the spend minus its allocation; a payer never allocated more
      than its balance is left non-negative. */
  lemma SpentTotals(totalsBefore: map<PayerId, int>, totalsAfter: map<PayerId, int>,
                    balances: map<PayerId, int>, allocation: map<PayerId, int>)
    requires allocation.Keys == balances.Keys
    requires forall p :: p in balances ==> Lookup(totalsBefore, p) == balances[p]
    requires totalsAfter.Keys == totalsBefore.Keys + allocation.Keys
    requires forall p :: Lookup(totalsAfter, p) == Lookup(totalsBefore, p) - Lookup(allocation, p)
    ensures forall p :: p in allocation ==> p in totalsAfter && totalsAfter[p] == balances[p] - allocation[p]
  {
  }

  /** Lines 112-118 of SpendPoints: the scan starts from a copy of every
      payer's balance and a zero allocation for each. */
  method CopyBalances(currentBalances: map<PayerId, int>)
    returns (payerSpendBalance: map<PayerId, int>, payerSpendAllocation: map<PayerId, int>)
    ensures payerSpendBalance == currentBalances
    ensures payerSpendAllocation.Keys == currentBalances.Keys
    ensures forall p :: p in payerSpendAllocation ==> payerSpendAllocation[p] == 0
  {
    payerSpendBalance := map[];
    payerSpendAllocation := map[];
    var toCopy := currentBalances.Keys;
    while toCopy != {}
      invariant toCopy <= currentBalances.Keys
      invariant payerSpendBalance.Keys == currentBalances.Keys - toCopy
      invariant payerSpendAllocation.Keys == currentBalances.Keys - toCopy
      invariant forall p :: p in payerSpendBalance ==> payerSpendBalance[p] == currentBalances[p]
      invariant forall p :: p in payerSpendAllocation ==> payerSpendAllocation[p] == 0
      decreases |toCopy|
    {
      var payer :| payer in toCopy;
      payerSpendBalance := payerSpendBalance[payer := currentBalances[payer]];
      payerSpendAllocation := payerSpendAllocation[payer := 0];
      toCopy := toCopy - {payer};
    }
  }

  /** Lines 120-135 of SpendPoints: walk the log in order, give each
      nonzero entry the least of its payer's remaining spend balance, its
      points and the outstanding request, and stop once nothing is
      outstanding. Computes exactly the allocation of the spend rule `Run`. */
  method ScanLog(txLog: seq<RewardTransaction>, start: ScanState) returns (payerSpendAllocation: map<PayerId, int>)
    ensures payerSpendAllocation == Run(txLog, start).allocation
  {
    var payerSpendBalance := start.spendBalance;
    payerSpendAllocation := start.allocation;
    var totalSpendBalance := start.remaining;
    var i := 0;
    while i < |txLog|
      invariant 0 <= i <= |txLog|
      invariant Run(txLog[i..], ScanState(payerSpendBalance, payerSpendAllocation, totalSpendBalance)) == Run(txLog, start)
    {
      ghost var before := ScanState(payerSpendBalance, payerSpendAllocation, totalSpendBalance);
      RunFrom(txLog, i, before);
      var tx := txLog[i];
      var currentPayerBalance := Lookup(payerSpendBalance, tx.payer);
      var currentPayerAllocation := Lookup(payerSpendAllocation, tx.payer);
      if tx.points != 0 {
        StepOnNonZero(before, tx);
        var amountToApply := Min(Min(currentPayerBalance, tx.points), totalSpendBalance);
        payerSpendBalance := payerSpendBalance[tx.payer := currentPayerBalance - amountToApply];
        payerSpendAllocation := payerSpendAllocation[tx.payer := currentPayerAllocation + amountToApply];
        totalSpendBalance := totalSpendBalance - amountToApply;
        assert ScanState(payerSpendBalance, payerSpendAllocation, totalSpendBalance) == Step(before, tx);
      } else {
        assert before == Step(before, tx);
      }
      if totalSpendBalance == 0 {
        break;
      }
      i := i + 1;
    }
  }

  /** Lines 112-135 of SpendPoints: copy the balances, then scan the log. */
  method AllocateSpend(txLog: seq<RewardTransaction>, currentBalances: map<PayerId, int>, numberOfPoints: int)
    returns (payerSpendAllocation: map<PayerId, int>)
    ensures payerSpendAllocation == Run(txLog, Initial(currentBalances, numberOfPoints)).allocation
  {
    var totalSpendBalance := numberOfPoints;
    var payerSpendBalance, zeroAllocation := CopyBalances(currentBalances);
    assert ScanState(payerSpendBalance, zeroAllocation, totalSpendBalance) == Initial(currentBalances, numberOfPoints);
    payerSpendAllocation := ScanLog(txLog, ScanState(payerSpendBalance, zeroAllocation, totalSpendBalance));
  }

  class LocalTransactionService {
    const payerStore: LocalPayerStore
    const transactionsStore: LocalTransactionsStore
    const rewardsStore: LocalRewardsStore

    /** Both stores saw the same entries, and every entry's payer is registered
        (purchases are checked, compensating entries go to registered payers). */
    ghost predicate Valid()
      reads this, payerStore, transactionsStore, rewardsStore
    {
      && payerStore.Valid() && transactionsStore.Valid() && rewardsStore.Valid()
      && rewardsStore.history == transactionsStore.history
      && PayersOf(transactionsStore.history) <= payerStore.cacheById.Keys
    }

    constructor ()
      ensures Valid()
      ensures fresh(payerStore) && fresh(transactionsStore) && fresh(rewardsStore)
      ensures payerStore.cacheById == map[] && transactionsStore.history == [] && transactionsStore.cache == []
    {
      payerStore := new LocalPayerStore();
      transactionsStore := new LocalTransactionsStore();
      rewardsStore := new LocalRewardsStore();
    }

    /** Registers (or re-registers) a payer; never fails. */
    method AddPayer(id: PayerId, name: string, now: int) returns (err: Option<AccountExistsError>)
      requires Valid()
      modifies payerStore
      ensures Valid()
      ensures err == None
      ensures payerStore.cacheById == old(payerStore.cacheById)[id := PayerAccount(id, name, now)]
      ensures payerStore.cacheByName == old(payerStore.cacheByName)[name := PayerAccount(id, name, now)]
    {
      err := payerStore.AddAccount(PayerAccount(id, name, now));
    }

    /** getPointsForPayer: the payer's total, 0 when it was never credited,
        which is the sum of its ledger entries. */
    function PointsForPayer(payerId: PayerId): (points: int)
      reads this, payerStore, transactionsStore, rewardsStore
      requires Valid()
      ensures points == SumFor(transactionsStore.history, payerId)
      ensures points == SumFor(transactionsStore.cache, payerId)
    {
      SumForPermutation(transactionsStore.history, transactionsStore.cache, payerId);
      match rewardsStore.GetPointsForPayer(payerId)
      case None => 0
      case Some(points) => points
    }

    /** Each registered payer's current total: what getAllPointsForPayers returns. */
    ghost function Balances(): map<PayerId, int>
      reads this, payerStore, transactionsStore
    {
      map id | id in payerStore.cacheById :: SumFor(transactionsStore.history, id)
    }

    /** getPointsProgressWithPayer: the given account with its ledger sum. */
    function ProgressWithPayer(payer: PayerAccount): (progress: RewardsAccumulateProgress)
      reads this, payerStore, transactionsStore, rewardsStore
      requires Valid()
      ensures progress.payer == payer
      ensures progress.points == SumFor(transactionsStore.history, payer.id)
    {
      RewardsAccumulateProgress(payer, PointsForPayer(payer.id))
    }

    /** An unregistered id is an error; a registered payer that was never
        credited reports 0 points. */
    function GetPointsProgressForPayer(payerId: PayerId): (r: Result<RewardsAccumulateProgress, PayerNotFoundError>)
      reads this, payerStore, transactionsStore, rewardsStore
      requires Valid()
      ensures r.Err? <==> payerId !in payerStore.cacheById
      ensures r.Err? ==> r.error == PayerNotFoundError(payerId)
      ensures r.Ok? ==> r.value.payer == payerStore.cacheById[payerId]
      ensures r.Ok? ==> r.value.points == SumFor(transactionsStore.history, payerId)
      ensures r.Ok? && payerId !in PayersOf(transactionsStore.history) ==> r.value.points == 0
    {
      match payerStore.GetWithId(payerId)
      case None => Err(PayerNotFoundError(payerId))
      case Some(payer) => Ok(ProgressWithPayer(payer))
    }

    /** One progress record per registered payer, in no particular order. */
    method GetAllPointsProgressesForPayers() returns (allProgresses: seq<RewardsAccumulateProgress>)
      requires Valid()
      ensures |allProgresses| == |payerStore.cacheById|
      ensures forall i :: 0 <= i < |allProgresses| ==>
                && allProgresses[i].payer.id in payerStore.cacheById
                && allProgresses[i].payer == payerStore.cacheById[allProgresses[i].payer.id]
                && allProgresses[i].points == SumFor(transactionsStore.history, allProgresses[i].payer.id)
      ensures forall i, j :: 0 <= i < j < |allProgresses| ==> allProgresses[i].payer.id != allProgresses[j].payer.id
    {
      var allPayers := payerStore.ListAllAccounts();
      allProgresses := [];
      for i := 0 to |allPayers|
        invariant |allProgresses| == i
        invariant forall k :: 0 <= k < i ==> allProgresses[k] == ProgressWithPayer(allPayers[k])
      {
        allProgresses := allProgresses + [ProgressWithPayer(allPayers[i])];
      }
    }

    /** The map from every registered id to its current total. */
    method GetAllPointsForPayers() returns (pointsByPayer: map<PayerId, int>)
      requires Valid()
      ensures pointsByPayer.Keys == payerStore.cacheById.Keys
      ensures forall p :: p in pointsByPayer ==> pointsByPayer[p] == SumFor(transactionsStore.history, p)
      ensures pointsByPayer == Balances()
    {
      var allPayers := payerStore.ListAllAccounts();
      pointsByPayer := map[];
      for i := 0 to |allPayers|
        invariant pointsByPayer.Keys <= payerStore.cacheById.Keys
        invariant forall k :: 0 <= k < i ==> allPayers[k].id in pointsByPayer
        invariant forall p :: p in pointsByPayer ==> pointsByPayer[p] == PointsForPayer(p)
      {
        pointsByPayer := pointsByPayer[allPayers[i].id := PointsForPayer(allPayers[i].id)];
      }
      forall id | id in payerStore.cacheById ensures id in pointsByPayer {
        var k :| 0 <= k < |allPayers| && allPayers[k] == payerStore.cacheById[id];
      }
    }

    /** addTransaction: the entry goes to the end of the ledger and into its
        payer's running total. */
    method AddTransaction(transaction: RewardTransaction)
      requires Valid()
      requires transaction.payer in payerStore.cacheById
      modifies transactionsStore, rewardsStore
      ensures Valid()
      ensures transactionsStore.cache == old(transactionsStore.cache) + [transaction]
      ensures transactionsStore.history == old(transactionsStore.history) + [transaction]
      ensures rewardsStore.cache == old(rewardsStore.cache)[transaction.payer := Lookup(old(rewardsStore.cache), transaction.payer) + transaction.points]
    {
      transactionsStore.AddTransaction(transaction);
      rewardsStore.AddTransaction(transaction);
      assert PayersOf(transactionsStore.history) == PayersOf(old(transactionsStore.history)) + {transaction.payer};
    }

    /** An unregistered payer is an error and nothing is written; otherwise
        the entry, stamped with the current time, is appended to both stores
        and the payer's total grows by exactly its points. */
    method ReceiveNewPurchase(transaction: RewardTransaction, now: int)
      returns (r: Result<RewardsAccumulateProgress, PayerNotFoundError>)
      requires Valid()
      modifies transactionsStore, rewardsStore
      ensures Valid()
      ensures transaction.payer !in payerStore.cacheById ==>
                && r == Err(PayerNotFoundError(transaction.payer))
                && unchanged(transactionsStore) && unchanged(rewardsStore)
      ensures transaction.payer in payerStore.cacheById ==>
                var stamped := transaction.(timestamp := now);
                && transactionsStore.cache == old(transactionsStore.cache) + [stamped]
                && transactionsStore.history == old(transactionsStore.history) + [stamped]
                && rewardsStore.cache == old(rewardsStore.cache)[stamped.payer := Lookup(old(rewardsStore.cache), stamped.payer) + stamped.points]
                && r == Ok(RewardsAccumulateProgress(payerStore.cacheById[transaction.payer],
                                                     old(PointsForPayer(transaction.payer)) + transaction.points))
    {
      var payer := payerStore.GetWithId(transaction.payer);
      if payer.None? {
        return Err(PayerNotFoundError(transaction.payer));
      }
      var stamped := transaction.(timestamp := now);
      AddTransaction(stamped);
      SumForConcat(old(transactionsStore.history), [stamped], stamped.payer);
      r := Ok(ProgressWithPayer(payer.value));
    }

    /** creditPayer: a compensating entry of `-pointsToCredit`. */
    method CreditPayer(payerId: PayerId, pointsToCredit: int, now: int)
      requires Valid()
      requires payerId in payerStore.cacheById
      modifies transactionsStore, rewardsStore
      ensures Valid()
      ensures transactionsStore.cache == old(transactionsStore.cache) + [RewardTransaction(payerId, -pointsToCredit, now)]
      ensures transactionsStore.history == old(transactionsStore.history) + [RewardTransaction(payerId, -pointsToCredit, now)]
      ensures rewardsStore.cache == old(rewardsStore.cache)[payerId := Lookup(old(rewardsStore.cache), payerId) - pointsToCredit]
    {
      AddTransaction(RewardTransaction(payerId, -pointsToCredit, now));
    }

    /** One turn of the loop below: credits the payer and extends the
        record of appended entries. */
    method CreditNext(payerId: PayerId, allocation: map<PayerId, int>, now: int, ghost cache0: seq<RewardTransaction>, ghost history0: seq<RewardTransaction>, ghost added: seq<RewardTransaction>, ghost done: set<PayerId>)
      returns (ghost added': seq<RewardTransaction>)
      requires Valid()
      requires payerId in allocation && payerId in payerStore.cacheById && payerId !in done
      requires transactionsStore.cache == cache0 + added
      requires transactionsStore.history == history0 + added
      requires CompensatesFor(added, allocation, done, now)
      modifies transactionsStore, rewardsStore
      ensures Valid()
      ensures transactionsStore.cache == cache0 + added'
      ensures transactionsStore.history == history0 + added'
      ensures CompensatesFor(added', allocation, done + {payerId}, now)
    {
      var entry := RewardTransaction(payerId, -allocation[payerId], now);
      CreditPayer(payerId, allocation[payerId], now);
      CompensatesForStep(added, allocation, done, now, payerId);
      AppendAssoc(cache0, added, entry);
      AppendAssoc(history0, added, entry);
      added' := added + [entry];
    }

    /** One compensating entry per payer of the allocation, in no particular
        order (Go ranges over the map), appended to both stores; each lowers
        that payer's total by exactly its allocation. */
    method CreditPayerAccountsViaAllocation(spendAllocationByPayerId: map<PayerId, int>, now: int)
      returns (ghost added: seq<RewardTransaction>)
      requires Valid()
      requires spendAllocationByPayerId.Keys <= payerStore.cacheById.Keys
      modifies transactionsStore, rewardsStore
      ensures Valid()
      ensures transactionsStore.cache == old(transactionsStore.cache) + added
      ensures transactionsStore.history == old(transactionsStore.history) + added
      ensures CompensatesFor(added, spendAllocationByPayerId, spendAllocationByPayerId.Keys, now)
      ensures rewardsStore.cache.Keys == old(rewardsStore.cache).Keys + spendAllocationByPayerId.Keys
      ensures forall p :: Lookup(rewardsStore.cache, p) == Lookup(old(rewardsStore.cache), p) - Lookup(spendAllocationByPayerId, p)
    {
      var remaining := spendAllocationByPayerId.Keys;
      ghost var done: set<PayerId> := {};
      ghost var cache0, history0 := transactionsStore.cache, transactionsStore.history;
      added := [];
      while remaining != {}
        invariant Valid()
        invariant remaining <= spendAllocationByPayerId.Keys
        invariant done == spendAllocationByPayerId.Keys - remaining
        invariant transactionsStore.cache == cache0 + added
        invariant transactionsStore.history == history0 + added
        invariant CompensatesFor(added, spendAllocationByPayerId, done, now)
        decreases |remaining|
      {
        var payerId :| payerId in remaining;
        added := CreditNext(payerId, spendAllocationByPayerId, now, cache0, history0, added, done);
        remaining := remaining - {payerId};
        done := done + {payerId};
      }
      assert done == spendAllocationByPayerId.Keys;
      CreditedTotals(history0, added, spendAllocationByPayerId, now);
    }

    /** One plan element per payer of the allocation, in no particular order:
        the registered account and the negated allocation. */
    method BuildRewardAllocations(spendAllocationByPayerId: map<PayerId, int>) returns (payerAllocations: seq<RewardsSpendAllocation>)
      requires Valid()
      requires spendAllocationByPayerId.Keys <= payerStore.cacheById.Keys
      ensures PlanFor(payerAllocations, spendAllocationByPayerId, spendAllocationByPayerId.Keys, payerStore.cacheById)
    {
      payerAllocations := [];
      var remaining := spendAllocationByPayerId.Keys;
      while remaining != {}
        invariant remaining <= spendAllocationByPayerId.Keys
        invariant PlanFor(payerAllocations, spendAllocationByPayerId, spendAllocationByPayerId.Keys - remaining, payerStore.cacheById)
        decreases |remaining|
      {
        var payerId :| payerId in remaining;
        PlanForStep(payerAllocations, spendAllocationByPayerId, spendAllocationByPayerId.Keys - remaining, payerStore.cacheById, payerId);
        payerAllocations := payerAllocations + [RewardsSpendAllocation(payerStore.GetWithId(payerId), -spendAllocationByPayerId[payerId])];
        assert spendAllocationByPayerId.Keys - remaining + {payerId} == spendAllocationByPayerId.Keys - (remaining - {payerId});
        remaining := remaining - {payerId};
      }
      assert spendAllocationByPayerId.Keys - remaining == spendAllocationByPayerId.Keys;
    }

    /** The first half of SpendPoints: sort the ledger in place, read every
        registered payer's balance, and run the scan over the sorted ledger. */
    method AllocateOnSortedLedger(numberOfPoints: int)
      returns (txLog: seq<RewardTransaction>, currentBalances: map<PayerId, int>, payerSpendAllocation: map<PayerId, int>)
      requires Valid()
      modifies transactionsStore
      ensures Valid()
      ensures transactionsStore.history == old(transactionsStore.history)
      ensures currentBalances == old(Balances())
      ensures currentBalances.Keys == payerStore.cacheById.Keys
      ensures forall p :: p in currentBalances ==> currentBalances[p] == SumFor(transactionsStore.history, p)
      ensures txLog == transactionsStore.cache
      ensures SortedByTimestamp(txLog) && multiset(txLog) == multiset(old(transactionsStore.cache))
      ensures payerSpendAllocation == Run(txLog, Initial(currentBalances, numberOfPoints)).allocation
    {
      ghost var balances := Balances();
      txLog := transactionsStore.GetTransactionLog();
      assert Balances() == balances;
      currentBalances := GetAllPointsForPayers();
      payerSpendAllocation := AllocateSpend(txLog, currentBalances, numberOfPoints);
    }

    /** Spends `numberOfPoints` oldest entry first. The ledger is sorted in
        place; the scan walks that sorted view; then every registered payer
        gets one compensating entry of minus its allocation, appended after
        the sorted entries, and the plan lists every registered payer once. */
    method SpendPoints(numberOfPoints: int, now: int)
      returns (plan: seq<RewardsSpendAllocation>, ghost balances: map<PayerId, int>, ghost scanned: seq<RewardTransaction>,
               ghost allocation: map<PayerId, int>, ghost added: seq<RewardTransaction>)
      requires Valid()
      modifies transactionsStore, rewardsStore
      ensures Valid()
      ensures balances == old(Balances())
      ensures SortedByTimestamp(scanned)
      ensures multiset(scanned) == multiset(old(transactionsStore.cache))
      ensures allocation == Run(scanned, Initial(balances, numberOfPoints)).allocation
      ensures allocation.Keys == payerStore.cacheById.Keys
      ensures transactionsStore.cache == scanned + added
      ensures transactionsStore.history == old(transactionsStore.history) + added
      ensures CompensatesFor(added, allocation, allocation.Keys, now)
      ensures forall p :: p in allocation ==> p in rewardsStore.cache && rewardsStore.cache[p] == balances[p] - allocation[p]
      ensures PlanFor(plan, allocation, allocation.Keys, payerStore.cacheById)
      ensures (forall p :: p in balances ==> balances[p] >= 0) ==>
                forall p :: p in allocation ==> rewardsStore.cache[p] >= 0
    {
      var txLog, currentBalances, payerSpendAllocation := AllocateOnSortedLedger(numberOfPoints);
      balances, scanned, allocation := currentBalances, txLog, payerSpendAllocation;
      SpendOnLedger(txLog, transactionsStore.history, balances, numberOfPoints);
      ghost var totalsBefore := rewardsStore.cache;
      TotalsGiveBalances(transactionsStore.history, balances);

      added := CreditPayerAccountsViaAllocation(payerSpendAllocation, now);
      SpentTotals(totalsBefore, rewardsStore.cache, balances, allocation);
      plan := BuildRewardAllocations(payerSpendAllocation);
    }
  }
}
