# Points ledger: a verified model

This project models the in-memory points engine of a purchase-tracker
service, written in Go. Payers (paying partners) are registered in a payer
registry. Each purchase appends a signed ledger entry for one payer, and a
running-balance index keeps one total per payer. A spend of N points walks
the ledger oldest entry first. It takes from each entry the least of the
payer's remaining balance, the entry's points and the remaining request.
Then it appends one compensating entry per registered payer and returns a
plan of what was taken from whom.

The model has one module per source component:

- `Domain`: the record types (payer account, ledger entry, plan element,
  progress record, the two error records), plus `Option` and `Result` for
  nil pointers and Go's value/error pairs.
- `Rewards`: the running-balance index (`LocalRewardsStore`, a class with
  the `cache` map). It also holds the specification functions: `SumFor`,
  a payer's sum over a log, and `Totals`, the index that replaying a log
  produces.
- `Transactions`: the append-only ledger (`LocalTransactionsStore`, a
  class with the `cache` sequence) and its `Len`/`Less`/`Swap` ordering.
  The sort is an insertion sort built from `Less` and `Swap`.
- `Accounts`: the payer registry (`LocalPayerStore`, a class with the
  three maps) and the search-term tokenizer.
- `Allocator`: the spend rule as pure functions. `Step` is one entry of the
  scan and `Run` is the whole scan with its early stop. The lemmas state
  what the scan guarantees.
- `Service`: `LocalTransactionService`, a class over the three stores.
  Its `SpendPoints` loop is proved equal to `Run`.

Go's `map` reads of a missing key are `Lookup` (default 0). Go's random map
iteration is a loop that picks an arbitrary remaining key (`:|`), so every
property that depends on that order is stated order-independently.
`time.Now()` is an integer parameter `now`. The ledger and index classes
each carry a ghost `history` of the entries added, in the order they were added. The
ledger's invariant is that its slice is a permutation of `history`. The
index's invariant is `cache == Totals(history)`. The service's invariant
is that both stores saw the same entries and every entry's payer is
registered.

Where the behaviour of the Go code differs from its design description,
the model follows the code:

- The scan skips only zero-point entries (`tx.Points != 0`). Negative
  entries also pass through the `min` rule and hand points back;
  `Allocator.SpendAfterEarlierSpend` shows a spend of 6 that allocates
  nothing although the payer holds 5.
- The sort is not stable, and nothing is validated: negative spends and
  negative purchases are accepted.
- A spend appends a compensating entry for every registered payer,
  including those allocated 0, so `SpendPoints(0)` still writes entries.
- `AddAccount` never reports a duplicate id; it overwrites.

The lemmas that need a non-negative request say so with
`requires numberOfPoints >= 0`; the Go code does not check it.

## Model

| member | source | states |
|---|---|---|
| Rewards.SumForPermutation | dao/transactions.go:45 | a payer's sum depends only on which entries the log holds, so sorting the ledger does not change any balance |
| Rewards.PayersOfPermutation | dao/transactions.go:45 | reordering the ledger keeps the same set of payers |
| Rewards.TotalsSum | dao/rewards.go:21-28 | after any sequence of additions the index tracks exactly the payers named in them, each with the sum of its own entries' points |
| Rewards.TotalsLookup | dao/rewards.go:30-36 | reading the index with a missing payer as 0 gives that payer's ledger sum |
| Rewards.TrackedStaysTracked | dao/rewards.go:23-27 | a tracked payer stays tracked whatever is added later (there is no removal) |
| Rewards.LocalRewardsStore.constructor | dao/rewards.go:17-19 | a new index is empty |
| Rewards.LocalRewardsStore.AddTransaction | dao/rewards.go:21-28 | the entry's payer becomes tracked, even for 0 points; its total grows by the entry's points from 0 when untracked; every other payer's tracked status and total are unchanged |
| Rewards.LocalRewardsStore.GetPointsForPayer | dao/rewards.go:30-36 | nil exactly for a payer no entry ever named (distinct from a total of 0); otherwise the sum of that payer's entries |
| Transactions.Len | dao/transactions.go:10-12 | the number of entries, each counted as often as it occurs |
| Transactions.LessIsStrict | dao/transactions.go:14-16 | `Less` is a strictly earlier timestamp (Go's `Before`): irreflexive, asymmetric and transitive, with exactly the equal-timestamp pairs unordered |
| Transactions.Swap | dao/transactions.go:18-20 | positions i and j are exchanged, every other position and the length are unchanged, and the contents are a permutation |
| Transactions.SortByTimestamp | dao/transactions.go:45 | the result is ordered non-decreasingly by timestamp and is a permutation of the input |
| Transactions.SortedViewUnique | dao/transactions.go:14-16 | when no two timestamps are equal, the sorted view is the one strictly ordered arrangement of the entries |
| Transactions.EqualTimestampsEitherOrder | dao/transactions.go:45 | two entries with equal timestamps are sorted in either order, so an unstable sort may return either |
| Transactions.LocalTransactionsStore.constructor | dao/transactions.go:33-35 | a new ledger is empty |
| Transactions.LocalTransactionsStore.AddTransaction | dao/transactions.go:37-39 | the entry goes at the end and every earlier entry stays where it was |
| Transactions.LocalTransactionsStore.GetTransactionLog | dao/transactions.go:41-47 | the store's own slice is sorted in place and returned; it is a permutation of exactly the entries appended so far, and later appends go after it |
| Accounts.WhitespaceTokens | dao/acccounts.go:95-98 | one single-character token per `\s` character of the name, each a whitespace character |
| Accounts.WhitespaceTokensOfChar | dao/acccounts.go:95-97 | a single character yields itself as a token when it matches `\s`, and nothing otherwise |
| Accounts.WhitespaceTokensAppend | dao/acccounts.go:95-98 | the tokens of a concatenation are the first part's tokens followed by the second's; with the one-character case, the tokens are exactly the name's own whitespace characters, left to right |
| Accounts.PrefixTokens | dao/acccounts.go:99-102 | max(0, len(name) - 2) prefix tokens |
| Accounts.TokenizeSearchableTerm | dao/acccounts.go:89-103 | the token count is the number of whitespace characters plus max(0, len(name) - 2), and every lower-cased prefix name[0:k] with 1 <= k < len(name) - 1 is a token |
| Accounts.TokenizeLayout | dao/acccounts.go:89-103 | the whitespace tokens, exactly `WhitespaceTokens(name)`, come first; the prefix of length k sits at position (whitespace count) + k - 1; no prefix token is as long as len(name) - 1 |
| Accounts.LocalPayerStore.constructor | dao/acccounts.go:29-35 | a new registry has no ids, names or tokens, so lookups answer nil and the listing is empty |
| Accounts.LocalPayerStore.AddAccount | dao/acccounts.go:45-59 | always returns nil; the payer is filed under its id and its name, overwriting any earlier payer there; each of its name tokens gets an entry; afterwards both lookups return it |
| Accounts.LocalPayerStore.IndexTokens | dao/acccounts.go:48-56 | the token entries grow by exactly the name's tokens, and every token list stays empty, because the appended copy is never stored back |
| Accounts.LocalPayerStore.ListAllAccounts | dao/acccounts.go:61-67 | exactly one element per registered id, each the payer registered under that id |
| Accounts.LocalPayerStore.GetWithId | dao/acccounts.go:69-71 | nil exactly when the id is not registered; otherwise the payer with that id |
| Accounts.LocalPayerStore.GetWithName | dao/acccounts.go:73-75 | nil exactly when the name is not registered; otherwise the payer with that name |
| Accounts.LocalPayerStore.SearchWithNameQuery | dao/acccounts.go:77-86 | always returns an empty list |
| Allocator.AmountToApply | service/transactions.go:126 | the amount is at most each of the balance, the entry's points and the request, and equals one of them |
| Allocator.Step | service/transactions.go:121-131 | a zero entry changes nothing; otherwise the request and the payer's spend balance stay non-negative; per payer, allocation plus spend balance is unchanged; the request falls by what the payer's allocation rises; other payers are untouched |
| Allocator.RunKeys | service/transactions.go:120-135 | the scan never drops an allocation entry and adds entries only for payers named in the log |
| Allocator.RunConservesEachPayer | service/transactions.go:113-129 | throughout the scan, each payer's allocation plus its remaining spend balance equals its balance at the start |
| Allocator.RunConservesRequest | service/transactions.go:127-129 | the remaining request plus the sum of all allocations is unchanged by the scan, so N minus the remaining request is the total allocated |
| Allocator.RunKeepsNonNegative | service/transactions.go:126-129 | from non-negative spend balances and request, both stay non-negative |
| Allocator.RunIgnoresZeroEntries | service/transactions.go:123 | while the request is outstanding, removing zero-point entries does not change the result |
| Allocator.RunStopsAtZero | service/transactions.go:132-134 | once the request reaches 0, the entries after that point are never read |
| Allocator.RunDrainsPositiveLog | service/transactions.go:120-135 | on a log of purchases whose balances are the payers' sums, what stays outstanding is exactly the part of the request above the log's total |
| Allocator.SpendAllocatesMin | service/transactions.go:120-135 | when every entry is a purchase, the allocations add up to min(N, total of the balances) |
| Allocator.SpendOnLedger | service/transactions.go:110-139 | scanning a reordering of the ledger from the registered payers' sums: the allocation's keys are the registered payers; with non-negative balances no payer is allocated more than its balance; on a ledger of purchases the allocations add up to min(N, total) |
| Allocator.SpendExample850 | transaction_service_test.go:119-141 | A earns 500, B earns 349 and 251; spending 850 allocates 500 from A and 350 from B and nothing stays outstanding |
| Allocator.SpendAfterEarlierSpend | service/transactions.go:123-131 | a negative entry hands points back: after 10 earned and 5 spent, a request for 6 allocates nothing and stays wholly outstanding |
| Service.CompensationShape | service/transactions.go:141-145 | the compensating entries name each credited payer exactly once, each entry being minus that payer's allocation, stamped now |
| Service.CompensationSum | service/transactions.go:141-145 | the compensating entries add minus the allocation to a credited payer's sum and 0 to any other payer's |
| Service.CompensationCoversEveryPayer | service/transactions.go:141-145 | every payer of the allocation has its compensating entry |
| Service.PlanShape | service/transactions.go:147-156 | the plan has one element per payer, each holding the registered account and minus the allocation |
| Service.CreditedTotals | service/transactions.go:141-145 | replaying the compensating entries after a ledger tracks every allocated payer and lowers each payer's total by exactly its allocation |
| Service.TotalsGiveBalances | service/transactions.go:76-83 | the replayed index holds each registered payer's ledger sum, reading a missing payer as 0 |
| Service.CopyBalances | service/transactions.go:112-119 | the spend balances are a copy of the balances and every payer starts with allocation 0 |
| Service.ScanLog | service/transactions.go:120-135 | the loop with its early break computes exactly the allocation of `Run` |
| Service.AllocateSpend | service/transactions.go:112-135 | copy then scan: exactly the allocation of `Run` from the initial state |
| Service.LocalTransactionService.constructor | service/transactions.go:30-36 | fresh, empty stores that satisfy the service invariant |
| Service.LocalTransactionService.AddPayer | service/transactions.go:38-44 | never fails; the payer is registered under its id and name with the creation time now |
| Service.LocalTransactionService.ProgressWithPayer | service/transactions.go:54-56 | the given account together with that payer's ledger sum |
| Service.LocalTransactionService.PointsForPayer | service/transactions.go:58-65 | the index's total, or 0 when untracked, equals the payer's ledger sum, whether the ledger is in append order or sorted |
| Service.LocalTransactionService.GetPointsProgressForPayer | service/transactions.go:46-52 | PayerNotFoundError exactly for an unregistered id; otherwise the registered account with its ledger sum, 0 for a payer never credited |
| Service.LocalTransactionService.GetAllPointsProgressesForPayers | service/transactions.go:67-74 | one progress record per registered payer, each with its ledger sum, no payer twice |
| Service.LocalTransactionService.GetAllPointsForPayers | service/transactions.go:76-83 | the keys are exactly the registered ids, each mapped to its ledger sum |
| Service.LocalTransactionService.AddTransaction | service/transactions.go:105-108 | the entry is appended to the ledger and added to its payer's total; the invariant is kept |
| Service.LocalTransactionService.ReceiveNewPurchase | service/transactions.go:85-94 | an unregistered payer gives PayerNotFoundError and neither store changes; otherwise the entry, re-stamped now, is appended to both stores and the reported points are the old total plus the entry's points |
| Service.LocalTransactionService.CreditPayer | service/transactions.go:96-103 | appends minus the credited points for the payer, stamped now, and lowers its total by that amount |
| Service.LocalTransactionService.CreditNext | service/transactions.go:142-144 | one turn of the credit loop extends the compensating entries by the next payer's |
| Service.LocalTransactionService.CreditPayerAccountsViaAllocation | service/transactions.go:141-145 | one compensating entry per allocated payer is appended to both stores, in some order; each payer's total falls by exactly its allocation; every allocated payer becomes tracked |
| Service.LocalTransactionService.BuildRewardAllocations | service/transactions.go:147-156 | one plan element per allocated payer, in some order, with its registered account and minus its allocation |
| Service.LocalTransactionService.AllocateOnSortedLedger | service/transactions.go:110-135 | the ledger is sorted in place, the balances are the registered payers' sums before the spend, and the allocation is `Run` over the sorted ledger |
| Service.LocalTransactionService.SpendPoints | service/transactions.go:110-139 | the scan walks the sorted ledger from the registered payers' balances; every registered payer gets one compensating entry of minus its allocation, after the sorted entries; each total becomes balance minus allocation, never negative when the balances were not; the plan lists every registered payer once |

## Left out

- Logging (`log.Printf`, `log.Fatalf`) is output only and is not modelled. The regular-expression compile error path cannot occur for the fixed pattern.
- The HTTP layer and program entry point (main.go) is not part of this model.
- The clock: `time.Now()` is the parameter `now`. One `SpendPoints` call stamps all its compensating entries with the same `now`, although successive Go clock reads could differ.
- `Rewards.LocalRewardsStore.AddTransaction`, `Service.LocalTransactionService.CreditPayer` and `Allocator.Step` (with `Service.ScanLog`) use unbounded integers. Go's `int` is 64-bit and wraps on overflow: in the running total (dao/rewards.go:27), in the negation `-pointsToCredit` (service/transactions.go:100), and in the balance, allocation and request updates (service/transactions.go:127-129). The model assumes no sum or negation leaves the int64 range.
- `math.Min` on `float64` is integer `Min`. This agrees with Go for magnitudes below 2^53; larger values and rounding are not modelled.
- `strings.ToLower` and the regexp engine are modelled on ASCII only. The model treats one character as one byte, with `\s` as tab, newline, form feed, carriage return and space.
- Pointers and aliasing are not modelled. Go's `ReceiveNewPurchase` writes the timestamp into the caller's own record; the model stamps a copy. Plan elements hold account values, not shared pointers.
- `sort.Sort` is Go's pattern-defeating quicksort. The model sorts with an insertion sort using the same `Less` and `Swap`, and promises only what `sort.Sort` promises: a sorted permutation. The order of equal timestamps is left open.
- `Service.LocalTransactionService.CreditPayer`, `CreditPayerAccountsViaAllocation` and `BuildRewardAllocations` require the ids they receive to be registered. The Go functions accept any id. `CreditPayer` is called only from `creditPayerAccountsViaAllocation` (service/transactions.go:143). That function and `buildRewardAllocations` are called only from `SpendPoints`, which passes an allocation keyed by exactly the registered ids. So only registered ids arrive, and the nil-account branch of `buildRewardAllocations` is not modelled.
- `Service.LocalTransactionService.SpendPoints` states the scan's total only through `Allocator.SpendOnLedger`: the allocations add up to min(N, total) when N is non-negative and every entry is a purchase. With negative entries that sum is not promised, because the source does not keep it.
- The `Balance` field of the payer record is never read or written and is not modelled.
- The source has compile-level mismatches: the ledger constructor's unused parameter, three-field literals for the four-field payer record, and a pointer timestamp assigned a value. The model follows the evident intent.
- The source has no concurrency, persistence or locking, so the model has none.
- `SpendPoints` is split into `AllocateOnSortedLedger`, `CopyBalances` and `ScanLog`. The credit loop's body is split into `CreditNext`. These helpers keep each proof small. Together they perform the same steps in the same order as the Go function.
