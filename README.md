# Banking ledger: five implementations and their interface, modelled and verified

The repository holds five hand-written versions of one in-memory banking
ledger, each a `BankingSystemImpl` class, plus the `BankingSystem` interface
whose docstrings state the contract. The ledger keeps accounts keyed by
id. It offers these operations:

- `create_account`, `deposit` and `transfer`;
- `top_spenders`, which ranks accounts by money sent out, ties broken by
  ascending id;
- `pay`, which withdraws money, names the payment `payment<k>` and
  schedules a 2% cashback one day (86400000 ms) later;
- `get_payment_status`, which reports whether that cashback has landed;
- `merge_accounts` and `get_balance(time_at)`, which rebuilds a past
  balance from the transaction log.

Every implementation works by changing its state in place. Each one
becomes a Dafny `class` in its own module:

- `ShivaniLevels` (`Shivani/banking_system_impl_1-3.py`): balance and
  outgoing-total maps, a payment table, a cashback schedule keyed by due
  time, and `_last_processed_ts`.
- `ShivaniFull` (`Shivani/banking_system_impl.py`): per-account logs. Merged
  accounts are soft-deleted with `merged_at`, and merged records are
  copied and tagged.
- `Andrea` (`Andrea/banking_system_impl.py`): a schedule of cashback events
  that is popped on drain and retargeted on merge. The log is sorted by
  timestamp after a merge.
- `Yejin` (`Yejin/banking_system_impl.py`): cashback records sit in the log
  and are flagged `deposited` in place. The payment ordinal is counted over
  all logs.
- `DaQuawn` (`DaQuawn/banking_system_impl.py`): levels 1 to 3, the same code
  as Yejin's. The class runs every operation on a `Yejin.Bank` it owns.
- `YejinInterface` (`Yejin/banking_system.py`): the default
  `create_account`, `deposit` and `transfer` bodies, plus lemmas for the
  documented `top_spenders` promises.

Shared modules:

- `Common`: the transaction record, the two cashback roundings, payment
  ids as decimal strings, sums over a log, and `Tagged` (the merge copies).
- `Ranking`: Python's string order, the `(-total, id)` sort, and the top-n
  slices.
- `LogLedger`: the log vocabulary Yejin and DaQuawn share. It covers the
  drain, live and historic balances, spending, payment status, the
  merge-join of two accounts, and the invariant that every payment name in
  a log was issued by the counter.

Every operation that drains pending cashback first is split in two. A
method `ApplyX` (or the drain method itself) states the effect on the state
it is given. The public method states the whole new state as that effect
applied to the drained state. Each drain is specified by a function of
the old state, such as `DrainAll`, `DrainBank`, `DrainAccounts` or
`DrainedBooks`. Lemmas then prove what the source promises about it: each
cashback is credited exactly once, a second drain changes nothing, and the
balance grows by what came due.

## Model

| member | source | states |
|---|---|---|
| Common.FloorCashback | Andrea/banking_system_impl.py:224 | `(amount * 2) // 100` is the 2% cashback rounded down: `50*r <= amount < 50*r + 50` for every integer amount |
| Common.TruncCashback | Yejin/banking_system_impl.py:235-239 | `int(amount * 0.02)` taken as the exact 2% truncated toward zero: the floor of `amount/50` for `amount >= 0`, the ceiling for negative amounts |
| Common.DecimalRoundTrip | Yejin/banking_system_impl.py:225 | the digits written after `payment` read back as the same counter, so `payment<k>` names exactly `k` |
| Common.PaymentIdInjective | Shivani/banking_system_impl.py:143-144 | two counters give the same payment id if and only if they are equal |
| Common.PaymentIdIsPayment | Yejin/banking_system_impl.py:222-225 | every issued id passes the `startswith('payment')` test that the ordinal count and `top_spenders` apply |
| Common.NotPaymentName | Yejin/banking_system_impl.py:180 | an operation name not starting with `p` (`deposited`, `transferred out`, `cashback`, `created account`) never passes `startswith('payment')` |
| Common.FreshName | Shivani/banking_system_impl_1-3.py:139-140 | a name issued by counters `1..n` differs from the name the counter gives next |
| Common.IssuedNameOf | Andrea/banking_system_impl.py:212-213 | the name of counter `k`, for `1 <= k <= n`, counts as issued once the counter reaches `n` |
| Common.TagCopies | Shivani/banking_system_impl.py:214-219 | the copy loop yields, record for record, the donor's log with `merged_at` set to the merge time |
| Common.Remove | Yejin/banking_system_impl.py:310 | deleting `id2` drops exactly that key from the key order and keeps the other keys distinct |
| Ranking.StrLessTotal | Yejin/banking_system_impl.py:184 | Python's string `<` separates any two different ids, so ties in total are always broken |
| Ranking.StrLessTransitive | Yejin/banking_system_impl.py:184 | Python's string `<` is transitive |
| Ranking.StrLessIrreflexive | Yejin/banking_system_impl.py:184 | no id sorts before itself |
| Ranking.OutranksTransitive | Andrea/banking_system_impl.py:184 | the sort key `(-total, id)` orders spenders transitively |
| Ranking.OutranksTotal | Andrea/banking_system_impl.py:184 | two entries with different ids are always ordered one way or the other |
| Ranking.SortByRank | Yejin/banking_system_impl.py:184 | sorting by `(-total, id)` returns a permutation of the pairs with higher totals first and ties by ascending id |
| Ranking.RankAll | Shivani/banking_system_impl.py:106-120 | collecting one `(id, total)` pair per account and sorting lists every account exactly once, in rank order |
| Ranking.PrefixIsTop | Yejin/banking_system_impl.py:186-189 | any prefix of the full ranking is a top list: ranked, true totals, and every account left out is outranked by every account listed |
| Ranking.PySlicePrefix | Shivani/banking_system_impl_1-3.py:120 | `top_accounts[:n]` is a prefix that keeps `n` entries, or all of them when there are fewer; a negative `n` drops exactly the last `-n` entries, or everything when there are fewer |
| Ranking.FirstN | Shivani/banking_system_impl.py:123-126 | the entries visited by `range(min(n, len(spenders)))` form a prefix: the first `n`, all of them when there are fewer, none for `n <= 0` |
| Ranking.CollectFirst | Shivani/banking_system_impl.py:122-126 | the append loop over `range(min(n, len(spenders)))` collects exactly the prefix `FirstN` describes |
| LogLedger.DrainLogSettles | Yejin/banking_system_impl.py:59-68 | the drain changes only the `deposited` flag: it sets it exactly on due, undeposited cashback records and leaves no due cashback undeposited |
| LogLedger.DrainRecords | Yejin/banking_system_impl.py:59-68 | the loop over one account's records yields the drained log and a balance grown by exactly the amount of the cashback that came due |
| LogLedger.DrainIdempotent | Yejin/banking_system_impl.py:59-68 | a second drain at the same timestamp changes nothing, and nothing is left due |
| LogLedger.DrainMonotone | Yejin/banking_system_impl.py:59-68 | after a drain at a later time, a drain at an earlier time is a no-op |
| LogLedger.DrainCompose | Yejin/banking_system_impl.py:59-68 | a drain at `t1` then at `t2 >= t1` equals one drain at `t2` |
| LogLedger.DrainCredits | Yejin/banking_system_impl.py:66-68 | any sum that counts deposited cashback grows under a drain by exactly the due amount, so each cashback is credited once |
| LogLedger.LiveBalanceAfterDrain | Yejin/banking_system_impl.py:66-68 | the balance implied by the log grows by exactly the due cashback, matching the `+=` on the stored balance |
| LogLedger.DrainKeepsSpending | Yejin/banking_system_impl.py:173-181 | a drain changes neither an account's outgoing total nor its number of payment records |
| LogLedger.NothingDue | Yejin/banking_system_impl.py:61-65 | with no due, undeposited cashback the drain leaves the log as it was |
| LogLedger.FirstCashbackFor | Yejin/banking_system_impl.py:272-276 | the index found is the first cashback record naming the payment, and none is returned only when no record names it |
| LogLedger.PaidStatus | Yejin/banking_system_impl.py:228-242 | after `pay` appends its two records, `get_payment_status` at time `t` reports `IN_PROGRESS` before `ts + 86400000` and `CASHBACK_RECEIVED` from then on, whatever records follow |
| LogLedger.HistoryIgnoresDrain | Yejin/banking_system_impl.py:341-358 | `get_balance`'s fold ignores the `deposited` flag, so a drain never changes a historic balance |
| LogLedger.HistoricMatchesLive | Yejin/banking_system_impl.py:341-358 | when every record is at or before `now` (cashback deposited exactly when due), the historic fold at `now` equals the balance the log implies |
| LogLedger.QuietDrain | Yejin/banking_system_impl.py:59-68 | a bank with nothing due is left unchanged by the drain |
| LogLedger.AbsorbThenDrain | Yejin/banking_system_impl.py:304-307 | merging then draining equals draining both accounts then merging, and a merge of consistent accounts is consistent |
| LogLedger.MergedSpending | Yejin/banking_system.py:201-204 | after a merge, `id2` is gone, `id1`'s outgoing total is the sum of both accounts' totals, and every other total is unchanged |
| LogLedger.HasOperationJoin | Yejin/banking_system_impl.py:263-266 | prefixing records that never name the payment does not change whether a payment record is found |
| LogLedger.FirstCashbackJoin | Yejin/banking_system_impl.py:272-276 | prefixing records that never name the payment only shifts the index of its first cashback record |
| LogLedger.StatusAfterAbsorb | Yejin/banking_system.py:196-198 | after a merge, a payment of `id2` that `id1`'s own log never names has the same status on `id1` as it had on `id2` |
| LogLedger.NextIsFresh | Yejin/banking_system_impl.py:217-225 | when all payment names in a log were issued by the counter, the next ordinal names no record yet |
| LogLedger.PaymentsInSnoc | Yejin/banking_system_impl.py:219-223 | adding one account to the scan adds that account's payment records to the count |
| LogLedger.PaymentsInUpdate | Yejin/banking_system_impl.py:219-223 | replacing one account's log changes the count by the difference of its payment records |
| LogLedger.PaymentsInDrain | Yejin/banking_system_impl.py:219-223 | the drain leaves the payment count unchanged |
| LogLedger.PaymentsInMerge | Yejin/banking_system_impl.py:304-310 | merging and deleting `id2` keeps the total number of payment records, so ordinals stay unique after a merge |
| LogLedger.PaySound | Yejin/banking_system_impl.py:214-242 | a payment keeps the ledger invariant with the counter advanced by one, and its new id names no earlier record |
| LogLedger.CreateSound | Yejin/banking_system_impl.py:76-90 | creating an absent account keeps the invariant |
| LogLedger.ExtendSound | Yejin/banking_system_impl.py:109-115 | appending records that carry their own balance change keeps the invariant |
| LogLedger.DrainAllSound | Yejin/banking_system_impl.py:59-68 | the drain keeps the invariant |
| LogLedger.MergeSound | Yejin/banking_system_impl.py:300-310 | a merge keeps the invariant: balance equals the log's live balance, and every payment name was issued |
| LogLedger.TransferConserves | Yejin/banking_system_impl.py:122-158 | a transfer keeps the accounts, moves `amount` from source to target with their sum conserved, logs one record on each side and touches no other account |
| Yejin.CreatedTimes | Yejin/banking_system_impl.py:331-333 | the list holds exactly the timestamps of `created account` records |
| Yejin.SeqMin | Yejin/banking_system_impl.py:337 | `min` returns an element no greater than any other |
| Yejin.HistoryIsStable | Yejin/banking_system_impl.py:341-344 | records stamped after `time_at` never change the balance reported for `time_at` |
| Yejin.MergedHistory | Yejin/banking_system_impl.py:341-358 | after `extend`, the historic balance of the joined log is the sum of the two accounts' historic balances |
| Yejin.CreatedTimesAppend | Yejin/banking_system_impl.py:331-333 | the creation times of two joined logs are those of the first log followed by those of the second |
| Yejin.AnswersWhenCreated | Yejin/banking_system_impl.py:331-338 | `get_balance` answers for a log exactly when one of its `created account` records is not later than `time_at` |
| Yejin.MergedQuery | Yejin/banking_system_impl.py:307-358 | after `extend`, `get_balance` on the survivor answers exactly when it would have answered for one of the two accounts, and then with the sum of both histories |
| Yejin.DrainedInOrder | Yejin/banking_system_impl.py:59 | draining the accounts one by one in key order yields `DrainAll`, whatever the order |
| Yejin.Bank.constructor | Yejin/banking_system_impl.py:12-18 | the bank starts with no accounts and no payment issued |
| Yejin.Bank.ProcessCashbacks | Yejin/banking_system_impl.py:53-68 | the nested loops leave the accounts equal to `DrainAll` of the old accounts, with the keys and counter unchanged |
| Yejin.Bank.CreateAccount | Yejin/banking_system_impl.py:72-90 | succeeds if and only if the id is absent; adds balance 0 and one `created account` record; no drain |
| Yejin.Bank.Deposit | Yejin/banking_system_impl.py:94-118 | after the drain: None if and only if the id is absent; otherwise returns the drained balance plus `amount` and logs `deposited` |
| Yejin.Bank.ApplyDeposit | Yejin/banking_system_impl.py:103-118 | the same on an already drained state |
| Yejin.Bank.Transfer | Yejin/banking_system_impl.py:122-158 | after the drain: None if and only if an id is missing, the ids are equal or funds are short; otherwise the new state is the transfer, which `TransferConserves` describes |
| Yejin.Bank.ApplyTransfer | Yejin/banking_system_impl.py:130-158 | the same on an already drained state |
| Yejin.Bank.SpendingTotals | Yejin/banking_system_impl.py:170-181 | the loop computes, for every account, the sum of its `transferred out` and `payment*` records |
| Yejin.Bank.TopSpenders | Yejin/banking_system_impl.py:162-192 | drains, then returns a top list of the outgoing totals of length `min(n, count)` (Python slice rules for negative `n`) |
| Yejin.Bank.NextPaymentOrdinal | Yejin/banking_system_impl.py:217-223 | the nested count is 1 plus the number of payment records over all accounts |
| Yejin.Bank.Pay | Yejin/banking_system_impl.py:196-244 | after the drain: None if and only if the id is absent or funds are short; otherwise returns `payment<k>` for the next ordinal, a name no record holds yet, debits `amount` and appends the payment record and an undeposited cashback record due one day later |
| Yejin.Bank.ApplyPay | Yejin/banking_system_impl.py:205-244 | the same on an already drained state |
| Yejin.Bank.PaymentStatusOf | Yejin/banking_system_impl.py:257-281 | the two scans return the log's status: None without the account or the payment record, otherwise the first matching cashback record's flag |
| Yejin.Bank.GetPaymentStatus | Yejin/banking_system_impl.py:248-281 | drains, then returns that status |
| Yejin.Bank.MergeAccounts | Yejin/banking_system_impl.py:285-312 | after the drain: fails if and only if the ids are equal or one is missing; otherwise `id1` gets the summed balance and its log followed by `id2`'s, and `id2` is deleted |
| Yejin.Bank.GetBalance | Yejin/banking_system_impl.py:316-358 | with no drain: None when the account is missing, has no `created account` record, or `time_at` is before the earliest one; otherwise the fold over records up to `time_at`, cashback counted whatever its flag |
| YejinExamples.Example1 | Yejin/banking_system_impl.py:364-439 | replaying the first scenario gives `payment1`, 1500, 2100, `IN_PROGRESS`, a historic 2100 and finally 2240 |
| YejinExamples.Example2 | Yejin/banking_system_impl.py:441-474 | replaying the second scenario gives `payment1`, then historic balances 700, 700 and 706 |
| DaQuawn.BankingSystem.constructor | DaQuawn/banking_system_impl.py:11-47 | starts with no accounts and no payment issued |
| DaQuawn.BankingSystem.ProcessCashbacks | DaQuawn/banking_system_impl.py:49-64 | the accounts become `DrainAll` of the old ones |
| DaQuawn.BankingSystem.CreateAccount | DaQuawn/banking_system_impl.py:67-85 | succeeds if and only if the id is absent; no drain; no account ever disappears |
| DaQuawn.BankingSystem.Deposit | DaQuawn/banking_system_impl.py:88-111 | after the drain: None if and only if the id is absent; otherwise returns the balance plus `amount` |
| DaQuawn.BankingSystem.Transfer | DaQuawn/banking_system_impl.py:115-150 | after the drain: None if and only if an id is missing, the ids are equal or funds are short; otherwise the conserving transfer |
| DaQuawn.BankingSystem.TopSpenders | DaQuawn/banking_system_impl.py:154-183 | drains, then returns a top list of length `min(n, count)` |
| DaQuawn.BankingSystem.Pay | DaQuawn/banking_system_impl.py:186-241 | after the drain: None if and only if the id is absent or funds are short; otherwise a fresh `payment<k>` and the two records |
| DaQuawn.BankingSystem.GetPaymentStatus | DaQuawn/banking_system_impl.py:243-275 | drains, then returns the log's status for the payment |
| YejinInterface.BankingSystem.constructor | Yejin/banking_system.py:9-16 | the accounts dictionary starts empty |
| YejinInterface.BankingSystem.CreateAccount | Yejin/banking_system.py:20-40 | returns False if and only if the id exists; otherwise adds balance 0 and one `created account` record |
| YejinInterface.BankingSystem.Deposit | Yejin/banking_system.py:42-61 | None if and only if the id is absent; otherwise adds `amount` and returns the new balance |
| YejinInterface.BankingSystem.Transfer | Yejin/banking_system.py:63-98 | None if and only if an id is missing, the ids are equal or funds are short; otherwise the conserving transfer with one record per side |
| YejinInterface.DepositRecord | Yejin/banking_system.py:55-58 | a `deposited` record adds its amount to the balance and names no payment |
| YejinInterface.TransferPlain | Yejin/banking_system.py:85-96 | a transfer only adds `transferred in` / `transferred out` records |
| YejinInterface.CashbackIsNotSpending | Yejin/banking_system.py:114-116 | appending a cashback record leaves the outgoing total unchanged |
| YejinInterface.AllWhenFewer | Yejin/banking_system.py:112-113 | when at most `n` accounts exist, a top list of length `min(n, count)` contains every account |
| YejinInterface.TopIdsDistinct | Yejin/banking_system.py:102-111 | a top list names no account twice |
| ShivaniFull.DrainAcct | Shivani/banking_system_impl.py:23-32 | the drain leaves a merged account untouched and keeps creation and merge times |
| ShivaniFull.DrainAcctOk | Shivani/banking_system_impl.py:26-32 | draining an active account raises its balance by exactly the due cashback and keeps the account invariant |
| ShivaniFull.DrainBankSound | Shivani/banking_system_impl.py:16-32 | the drain keeps the bank invariant |
| ShivaniFull.DrainTwice | Shivani/banking_system_impl.py:16-32 | a second drain at the same timestamp changes nothing |
| ShivaniFull.ActiveSpending | Shivani/banking_system_impl.py:107-118 | the totals cover exactly the accounts that are not merged |
| ShivaniFull.MovedSound | Shivani/banking_system_impl.py:85-99 | a transfer keeps the bank invariant |
| ShivaniFull.StatusOf | Shivani/banking_system_impl.py:176-190 | None exactly when no record's operation is the payment; `CASHBACK_RECEIVED` exactly when one exists and some matching cashback is deposited |
| ShivaniFull.PaidStatusOf | Shivani/banking_system_impl.py:148-190 | after a payment's two records, the status at `t` is `IN_PROGRESS` before `ts + 86400000` and `CASHBACK_RECEIVED` from then on |
| ShivaniFull.StatusPrefixed | Shivani/banking_system_impl.py:176-190 | records placed in front that never name the payment leave its status unchanged |
| ShivaniFull.StatusTagged | Shivani/banking_system_impl.py:214-219 | the tagged copies of a merge answer status queries as the original records do |
| ShivaniFull.StatusAfterMerge | Shivani/banking_system_impl.py:176-219 | a payment of the merged account that the survivor never names reports on the survivor as it did on the merged account |
| ShivaniFull.PayRecordsOk | Shivani/banking_system_impl.py:146-161 | the two payment records lower the balance by `amount`, count `amount` as spent and name only issued payments |
| ShivaniFull.PaidSound | Shivani/banking_system_impl.py:143-161 | the counter's next id names no record yet, and the payment keeps the invariant with the counter advanced |
| ShivaniFull.MergedSpending | Shivani/banking_system_impl.py:109-222 | after a merge, the ranking covers the active accounts except `id2`; `id1`'s total is the sum of both accounts' totals, and the rest are unchanged |
| ShivaniFull.MergedSound | Shivani/banking_system_impl.py:209-222 | a merge keeps the bank invariant, including for the soft-deleted donor |
| ShivaniFull.HistoryAfterMerge | Shivani/banking_system_impl.py:252-257 | before the merge time the survivor's history ignores the copies; from then on it is the sum of the two histories |
| ShivaniFull.TagEffect | Shivani/banking_system_impl.py:255-257 | a tagged copy counts nothing before the merge time and counts like the original from then on |
| ShivaniFull.HistoryMatchesLive | Shivani/banking_system_impl.py:246-273 | with every record and merge at or before `now`, the historic fold equals the balance the log implies |
| ShivaniFull.BankingSystem.constructor | Shivani/banking_system_impl.py:4-14 | no accounts, counter at 1 |
| ShivaniFull.BankingSystem.ProcessCashbacks | Shivani/banking_system_impl.py:16-32 | the accounts become `DrainBank` of the old ones |
| ShivaniFull.BankingSystem.CreateAccount | Shivani/banking_system_impl.py:34-47 | succeeds if and only if the id is absent or merged away; a fresh account has balance 0, an empty log and `creation_time = timestamp` |
| ShivaniFull.BankingSystem.Record | Shivani/banking_system_impl.py:59-64 | appends records whose live effect matches the balance change |
| ShivaniFull.BankingSystem.ApplyDeposit | Shivani/banking_system_impl.py:52-65 | None if and only if the account is missing or merged; otherwise returns the new balance and logs `deposit` |
| ShivaniFull.BankingSystem.Deposit | Shivani/banking_system_impl.py:49-65 | the same after the drain |
| ShivaniFull.BankingSystem.ApplyTransfer | Shivani/banking_system_impl.py:70-101 | None if and only if an id is missing, the ids are equal, either account is merged or funds are short; otherwise the conserving transfer |
| ShivaniFull.BankingSystem.Transfer | Shivani/banking_system_impl.py:67-101 | the same after the drain |
| ShivaniFull.BankingSystem.SpendingTotals | Shivani/banking_system_impl.py:107-118 | the loop computes the outgoing totals of the active accounts |
| ShivaniFull.BankingSystem.TopSpenders | Shivani/banking_system_impl.py:103-128 | drains, then returns a top list of the active accounts of length `max(0, min(n, count))` |
| ShivaniFull.BankingSystem.ApplyPay | Shivani/banking_system_impl.py:133-163 | None if and only if the account is missing, merged or short of funds; otherwise returns `payment<counter>`, advances the counter once and appends the two records |
| ShivaniFull.BankingSystem.Pay | Shivani/banking_system_impl.py:130-163 | the same after the drain |
| ShivaniFull.BankingSystem.GetPaymentStatus | Shivani/banking_system_impl.py:165-190 | drains, then returns None for a missing or merged account, else `StatusOf` its log |
| ShivaniFull.BankingSystem.ApplyMerge | Shivani/banking_system_impl.py:195-224 | fails if and only if the ids are equal, one is missing or either is merged; otherwise sums the balances, appends tagged copies and marks `id2` merged |
| ShivaniFull.BankingSystem.MergeAccounts | Shivani/banking_system_impl.py:192-224 | the same after the drain |
| ShivaniFull.BankingSystem.GetBalance | Shivani/banking_system_impl.py:226-273 | drains, then returns None for a missing account, a time before creation, or a time at or after its merge; otherwise the fold |
| Andrea.DueTimes | Andrea/banking_system_impl.py:58-60 | the pending times are exactly the scheduled times at or before `timestamp` |
| Andrea.DrainSchedule | Andrea/banking_system_impl.py:63-65 | after the drain, the schedule keeps exactly the times after `timestamp`, with their events |
| Andrea.CreditAllBalance | Andrea/banking_system_impl.py:67-70 | crediting a list of due events raises each account's balance by exactly its own events' amounts |
| Andrea.CreditAllLog | Andrea/banking_system_impl.py:71-76 | each account's log gains exactly one cashback record per event for it, in order |
| Andrea.DrainOk | Andrea/banking_system_impl.py:53-76 | the drain keeps the account invariant and a well-formed schedule |
| Andrea.DrainTwice | Andrea/banking_system_impl.py:268-270 | a second drain at the same timestamp changes nothing, so `get_payment_status`'s forced re-drain is a no-op |
| Andrea.Scheduled | Andrea/banking_system_impl.py:230-233 | `setdefault`-and-append puts the event last at its time and leaves the other times alone |
| Andrea.ScheduledPending | Andrea/banking_system_impl.py:230-233 | scheduling raises the scheduled cashback total of exactly the paying account by the cashback |
| Andrea.Retarget | Andrea/banking_system_impl.py:316-320 | each event of `id2` becomes `id1`'s and the others stay as they were |
| Andrea.RetargetPending | Andrea/banking_system_impl.py:314-321 | after retargeting, `id1`'s pending cashback is the sum of both accounts', `id2` has none and the others are unchanged |
| Andrea.SortFacts | Andrea/banking_system_impl.py:311 | the sort returns the log ordered by timestamp, a permutation of it |
| Andrea.SortTotal | Andrea/banking_system_impl.py:311 | sorting the log changes no sum over it |
| Andrea.MergedSpending | Andrea/banking_system_impl.py:302-324 | after a merge, `id2` leaves the ranking and `id1`'s outgoing total is the sum of both; others unchanged |
| Andrea.MergedLogIssued | Andrea/banking_system_impl.py:305-311 | the copied, tagged and sorted log of a merge names only payments that were issued |
| Andrea.MergedAcctOk | Andrea/banking_system_impl.py:302-311 | the survivor's balance equals the running balance of its sorted, merged log |
| Andrea.AbsorbedOk | Andrea/banking_system_impl.py:297-324 | a merge keeps the account invariant |
| Andrea.PaymentLifecycle | Andrea/banking_system_impl.py:209-281 | right after `pay` the status is `IN_PROGRESS`; after a drain at `later` it is `CASHBACK_RECEIVED` exactly when `later >= ts + 86400000` |
| Andrea.BatchesFor | Andrea/banking_system_impl.py:63-76 | a drain logs a cashback for a payment on an account exactly when one of the popped times held an event for it |
| Andrea.JoinedLogs | Andrea/banking_system_impl.py:249-265 | a joined log has a withdrawal (or a cashback) for a payment exactly when one of its parts has |
| Andrea.StatusAfterMerge | Andrea/banking_system_impl.py:249-311 | after the copy and the sort, a payment of `id2` reports on `id1` as it did on `id2` |
| Andrea.HistoryMatchesLive | Andrea/banking_system_impl.py:347-364 | with every record and merge at or before `now`, the fold equals the balance the log implies |
| Andrea.HistoryAfterMerge | Andrea/banking_system_impl.py:347-364 | before the merge time the survivor's history ignores the copies; from then on it is the sum of both histories |
| Andrea.TagEffect | Andrea/banking_system_impl.py:349-351 | a tagged copy counts nothing before the merge time and like the original afterwards |
| Andrea.MovedOk | Andrea/banking_system_impl.py:142-153 | a transfer keeps the account invariant |
| Andrea.NextUnused | Andrea/banking_system_impl.py:212-213 | the next `withdraw_count` names no record and no scheduled event |
| Andrea.PaidOk | Andrea/banking_system_impl.py:209-233 | a payment keeps the invariants and schedules under a fresh id |
| Andrea.BankingSystem.constructor | Andrea/banking_system_impl.py:11-21 | no accounts, an empty schedule, counter 0 |
| Andrea.BankingSystem.PopAll | Andrea/banking_system_impl.py:63-76 | popping the pending times credits their events in order and removes exactly those times |
| Andrea.BankingSystem.CreditEvents | Andrea/banking_system_impl.py:67-76 | one time's events are credited to existing accounts, and events for a missing account are dropped |
| Andrea.BankingSystem.ProcessCashback | Andrea/banking_system_impl.py:53-76 | the accounts become `DrainAccounts` and the schedule `DrainSchedule` of the old state |
| Andrea.BankingSystem.CreateAccount | Andrea/banking_system_impl.py:80-99 | drains; succeeds if and only if the id is absent; the account starts with balance 0, a `created` record and `created_at` |
| Andrea.BankingSystem.Record | Andrea/banking_system_impl.py:111-115 | appends records whose live effect matches the balance change |
| Andrea.BankingSystem.ApplyDeposit | Andrea/banking_system_impl.py:107-121 | None if and only if the id is absent; otherwise returns the new balance and logs `deposited` |
| Andrea.BankingSystem.Deposit | Andrea/banking_system_impl.py:103-121 | the same after the drain |
| Andrea.BankingSystem.ApplyTransfer | Andrea/banking_system_impl.py:130-156 | None if and only if an id is missing, the ids are equal or funds are short; otherwise the conserving transfer |
| Andrea.BankingSystem.Transfer | Andrea/banking_system_impl.py:126-156 | the same after the drain |
| Andrea.BankingSystem.SpendingTotals | Andrea/banking_system_impl.py:164-181 | the loop sums `transferred out`, `paid` and `withdrawn` for every account |
| Andrea.BankingSystem.TopSpenders | Andrea/banking_system_impl.py:160-192 | drains, then returns a top list of length `min(n, count)` |
| Andrea.BankingSystem.ApplyPay | Andrea/banking_system_impl.py:199-235 | None if and only if the id is absent or funds are short; otherwise `payment<withdraw_count>` with a fresh name, the debit, the `withdrawn` record and the event scheduled one day later |
| Andrea.BankingSystem.Pay | Andrea/banking_system_impl.py:194-235 | the same after the drain |
| Andrea.BankingSystem.GetPaymentStatus | Andrea/banking_system_impl.py:237-281 | drains, then returns None without the account or the `withdrawn` record, `CASHBACK_RECEIVED` if a cashback record for the payment exists, else `IN_PROGRESS` |
| Andrea.BankingSystem.RetargetEvents | Andrea/banking_system_impl.py:314-321 | the rewrite loop gives every pending event of `id2` to `id1` |
| Andrea.BankingSystem.ApplyMerge | Andrea/banking_system_impl.py:288-326 | fails if and only if the ids are equal or one is missing; otherwise the sorted merged log, summed balance, earliest `created_at`, retargeted events and `id2` removed |
| Andrea.BankingSystem.MergeAccounts | Andrea/banking_system_impl.py:284-326 | the same after the drain |
| Andrea.BankingSystem.GetBalance | Andrea/banking_system_impl.py:328-364 | drains, then returns None without the account or a record at or before `time_at`; otherwise the fold of records at or before `time_at` whose merge tag is not later |
| ShivaniLevels.Appended | Shivani/banking_system_impl_1-3.py:156 | `setdefault(ts, []).append(p)` adds `p` at `ts` and leaves the other times alone |
| ShivaniLevels.DueKeys | Shivani/banking_system_impl_1-3.py:37-38 | the due times are exactly the schedule keys in `(_last_processed_ts, timestamp]` |
| ShivaniLevels.SortedOfAscending | Shivani/banking_system_impl_1-3.py:42 | `sorted(due_times)` visits the due times in ascending order |
| ShivaniLevels.DrainedSchedule | Shivani/banking_system_impl_1-3.py:52 | after the drain, the schedule keeps exactly the keys outside `(_last_processed_ts, timestamp]` |
| ShivaniLevels.SettleStatus | Shivani/banking_system_impl_1-3.py:43-51 | handling a list of ids marks exactly the listed payments `CASHBACK_RECEIVED` and leaves the others as they were |
| ShivaniLevels.SettleAllStatus | Shivani/banking_system_impl_1-3.py:42-52 | handling the due times marks received exactly the payments listed at one of them |
| ShivaniLevels.DrainStatus | Shivani/banking_system_impl_1-3.py:29-53 | after the drain, a payment is received exactly when it was, or when its cashback time lies in `(last, ts]` and is scheduled |
| ShivaniLevels.SettleBalance | Shivani/banking_system_impl_1-3.py:47-50 | each account's balance rises by exactly the cashback of its in-progress payments in the list |
| ShivaniLevels.SettleTwice | Shivani/banking_system_impl_1-3.py:45-46 | handling the same ids again changes nothing, because only `IN_PROGRESS` payments are credited |
| ShivaniLevels.DrainTwice | Shivani/banking_system_impl_1-3.py:29-53 | a second drain at the same timestamp changes neither the books nor the schedule |
| ShivaniLevels.DrainOk | Shivani/banking_system_impl_1-3.py:29-53 | after the drain, the schedule still lists exactly the payments in progress |
| ShivaniLevels.DrainCredits | Shivani/banking_system_impl_1-3.py:37-51 | when every key is past the last processed time, every payment whose cashback time has come is received after the drain |
| ShivaniLevels.Spending | Shivani/banking_system_impl_1-3.py:111-114 | the ranked totals cover exactly the accounts, reading 0 for an account missing from `_outgoing_total` |
| ShivaniLevels.PayOk | Shivani/banking_system_impl_1-3.py:147-156 | recording a new in-progress payment and scheduling it keeps the schedule in step with the payments |
| ShivaniLevels.PaidConsistent | Shivani/banking_system_impl_1-3.py:134-156 | the counter's next id is unused, and the payment keeps the object's invariant |
| ShivaniLevels.DrainConsistent | Shivani/banking_system_impl_1-3.py:29-53 | the drain keeps the invariant, and keeps every pending key past the new last processed time |
| ShivaniLevels.PayStepOk | Shivani/banking_system_impl_1-3.py:125-158 | any step `pay` can take keeps the invariant |
| ShivaniLevels.BankingSystem.constructor | Shivani/banking_system_impl_1-3.py:17-26 | empty maps, counter 0, last processed 0 |
| ShivaniLevels.BankingSystem.Credit | Shivani/banking_system_impl_1-3.py:47-51 | one in-progress payment credits its account and is marked received |
| ShivaniLevels.BankingSystem.SettleList | Shivani/banking_system_impl_1-3.py:43-51 | the loop over one time's ids computes `Settle` |
| ShivaniLevels.BankingSystem.SettleTimes | Shivani/banking_system_impl_1-3.py:42-52 | the loop over the sorted due times computes `SettleAll` and deletes exactly those keys |
| ShivaniLevels.BankingSystem.ProcessCashbacks | Shivani/banking_system_impl_1-3.py:29-53 | the books become `DrainedBooks`, the schedule `DrainedSchedule`, and `_last_processed_ts` becomes `max(last, ts)`, never lower |
| ShivaniLevels.BankingSystem.CreateAccount | Shivani/banking_system_impl_1-3.py:56-64 | drains; succeeds if and only if the id is absent; adds balance 0 and outgoing 0 |
| ShivaniLevels.BankingSystem.Deposit | Shivani/banking_system_impl_1-3.py:67-77 | drains; None if and only if the id is absent; otherwise returns the balance plus `amount` |
| ShivaniLevels.BankingSystem.ApplyTransfer | Shivani/banking_system_impl_1-3.py:85-102 | None if and only if an id is missing, the ids are equal or funds are short; otherwise the sum of the two balances is kept and the source's outgoing total grows by `amount` |
| ShivaniLevels.BankingSystem.Transfer | Shivani/banking_system_impl_1-3.py:80-102 | the same after the drain |
| ShivaniLevels.BankingSystem.SpendingTotals | Shivani/banking_system_impl_1-3.py:110-114 | the loop reads the outgoing total of every account |
| ShivaniLevels.BankingSystem.TopSpenders | Shivani/banking_system_impl_1-3.py:105-122 | drains, then returns a top list whose length follows Python's `[:n]` |
| ShivaniLevels.BankingSystem.Put | Shivani/banking_system_impl_1-3.py:134-156 | records the debit, the outgoing total, the payment and its schedule entry |
| ShivaniLevels.BankingSystem.ApplyPay | Shivani/banking_system_impl_1-3.py:128-158 | takes a `PayStep`: None if and only if the account is missing or short; otherwise the counter advances once and the fresh `payment<k>` is recorded in progress with `(amount*2)//100` due one day later |
| ShivaniLevels.BankingSystem.Pay | Shivani/banking_system_impl_1-3.py:125-158 | the same after the drain |
| ShivaniLevels.BankingSystem.GetPaymentStatus | Shivani/banking_system_impl_1-3.py:160-172 | drains; returns a status if and only if the account exists and the payment is its own; the status is the stored one, and an `IN_PROGRESS` payment is still scheduled |

## Left out

- Floating point: `int(amount * 0.02)` (Yejin, DaQuawn and Shivani's full
  version) is modelled as the exact 2% truncated toward zero
  (`TruncCashback`). The binary rounding of `0.02` is not modelled; it can
  differ for amounts where `amount * 0.02` lands just below an integer.
- The string rendering `f"{acc}({amt})"` of `top_spenders`. The model
  returns the `(id, total)` pairs.
- `Yejin/banking_system.py`'s default `top_spenders` body (118-135). It
  raises `KeyError` on its first `+=` and sorts ascending. Only its
  documented contract is modelled, by the `YejinInterface` lemmas.
- The interface's stub `pay`, `get_payment_status`, `merge_accounts` and
  `get_balance`, which only return None or False.
- The abstract base class wiring and its `__init__(accounts_dic)`. The
  implementations never call them; the model's constructor starts from an
  empty map.
- The `__main__` demo and its printing (Yejin/banking_system_impl.py:361-476).
  Its two scenarios are replayed as `YejinExamples.Example1` and
  `Example2`.
- Record fields that are written and never read: `target`, `source`,
  `merged_from`, and the name of the key that links a cashback record to
  its payment (`payment_id`, `payment` or `related_payment`). The model
  keeps one `payment` field.
- Andrea.BankingSystem.ApplyMerge: the `.get('created_at', timestamp)`
  default is not modelled, because every account has `created_at` from
  its creation.
- Iteration order of dicts where it cannot change a result: the drains,
  the spending totals and the ranking input. Andrea's schedule keeps its
  insertion order as a sequence, and Yejin's ordinal count keeps the key
  order. The `top_spenders` sort is modelled by the specification it
  meets (ranked, a permutation), not by Timsort's steps.
- Andrea.SortFacts: the merge's sort by timestamp is modelled as an
  insertion sort proved ordered and a permutation. No lemma states that
  records with equal timestamps keep their relative order, as Python's
  stable sort does. No answer of the model depends on that order: status
  looks for the existence of records, and balances are sums.
- Out-of-order timestamps. ShivaniLevels.BankingSystem.Pay states only
  that `Ahead` (every pending key is later than `_last_processed_ts`) is
  kept when the cashback time is later than the last processed time. A
  cashback scheduled at or before `_last_processed_ts` would never be
  credited. No variant is written for decreasing timestamps.
- Negative amounts are accepted as the source accepts them. No lemma
  assumes `amount >= 0`, except where a rounding bound is stated.
- Yejin.Bank carries a ghost counter `issued` of payments made, used only
  to state that every payment name was issued. The source has no such
  field.
