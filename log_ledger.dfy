// Ledgers kept as per-account transaction logs whose "cashback" records
// carry a `deposited` flag that the drain flips in place (Yejin, DaQuawn and
// Shivani's final version), and the record vocabulary that Yejin's and
// DaQuawn's implementations share: "created account", "deposited",
// "transferred out", "transferred in", "payment<k>" and "cashback".

module LogLedger {
  import opened Common

  // ---------------------------------------------------------------------
  // Draining flagged cashback records

  /** A cashback record that is due at `ts` and not yet deposited. */
  predicate IsDueCashback(t: Txn, ts: int)
  {
    t.operation == "cashback" && t.timestamp <= ts && !t.deposited
  }

  /** The record after the drain at `ts` looked at it. */
  function Settle(t: Txn, ts: int): Txn
  {
    if IsDueCashback(t, ts) then t.(deposited := true) else t
  }

  /** The log after the drain's inner loop: due cashback flagged deposited. */
  function DrainLog(log: seq<Txn>, ts: int): (r: seq<Txn>)
    ensures |r| == |log|
  {
    seq(|log|, i requires 0 <= i < |log| => Settle(log[i], ts))
  }

  function DueAmount(ts: int): Txn -> int
  {
    (t: Txn) => if IsDueCashback(t, ts) then t.amount else 0
  }

  /** What the drain at `ts` adds to the balance: the amounts of the due,
      undeposited cashback records. */
  function DueSum(log: seq<Txn>, ts: int): int
  {
    Total(DueAmount(ts), log)
  }

  /** The drain flags every due record, changes nothing else of any record,
      and leaves nothing due behind. */
  lemma DrainLogSettles(log: seq<Txn>, ts: int)
    ensures forall i | 0 <= i < |log| ::
      var t, u := log[i], DrainLog(log, ts)[i];
      && u.(deposited := t.deposited) == t
      && (u.deposited <==> t.deposited || IsDueCashback(t, ts))
      && !IsDueCashback(u, ts)
  {
  }

  lemma {:induction false} TotalZero(f: Txn -> int, log: seq<Txn>)
    requires forall i | 0 <= i < |log| :: f(log[i]) == 0
    ensures Total(f, log) == 0
  {
    if log != [] {
      TotalZero(f, log[..|log| - 1]);
    }
  }

  /** Draining twice at the same timestamp is draining once: the second
      drain finds nothing due and credits nothing. */
  lemma DrainIdempotent(log: seq<Txn>, ts: int)
    ensures DrainLog(DrainLog(log, ts), ts) == DrainLog(log, ts)
    ensures DueSum(DrainLog(log, ts), ts) == 0
  {
    var d := DrainLog(log, ts);
    TotalZero(DueAmount(ts), d);
  }

  /** A later drain never un-deposits, and a drain at an earlier or equal
      time has nothing left to do after one at a later time. */
  lemma DrainMonotone(log: seq<Txn>, early: int, late: int)
    requires early <= late
    ensures DrainLog(DrainLog(log, late), early) == DrainLog(log, late)
    ensures DueSum(DrainLog(log, late), early) == 0
  {
    var d := DrainLog(log, late);
    TotalZero(DueAmount(early), d);
  }

  lemma {:induction false} DueSumAppend(a: seq<Txn>, b: seq<Txn>, ts: int)
    ensures DueSum(a + b, ts) == DueSum(a, ts) + DueSum(b, ts)
    ensures DrainLog(a + b, ts) == DrainLog(a, ts) + DrainLog(b, ts)
  {
    TotalAppend(DueAmount(ts), a, b);
  }

  /** One more step of the drain's inner loop. */
  lemma DueStep(log: seq<Txn>, j: int, ts: int)
    requires 0 <= j < |log|
    ensures DueSum(log[..j + 1], ts) == DueSum(log[..j], ts) + (if IsDueCashback(log[j], ts) then log[j].amount else 0)
  {
    assert log[..j + 1][..j] == log[..j];
  }

  /** With nothing due, the drain changes nothing and credits nothing. */
  lemma NothingDue(log: seq<Txn>, ts: int)
    requires forall i | 0 <= i < |log| :: !IsDueCashback(log[i], ts)
    ensures DrainLog(log, ts) == log
    ensures DueSum(log, ts) == 0
  {
    TotalZero(DueAmount(ts), log);
  }

  /** The inner loop of `_process_cashbacks` on one account: flags each
      due cashback record in place and credits its amount. */
  method DrainRecords(balance: int, log: seq<Txn>, ts: int) returns (balance': int, log': seq<Txn>)
    ensures balance' == balance + DueSum(log, ts)
    ensures log' == DrainLog(log, ts)
  {
    balance' := balance;
    log' := log;
    var j := 0;
    while j < |log'|
      invariant 0 <= j <= |log'| == |log|
      invariant forall k | 0 <= k < j :: log'[k] == Settle(log[k], ts)
      invariant forall k | j <= k < |log'| :: log'[k] == log[k]
      invariant balance' == balance + DueSum(log[..j], ts)
    {
      var t := log'[j];
      DueStep(log, j, ts);
      if t.operation == "cashback" && t.timestamp <= ts && !t.deposited {
        balance' := balance' + t.amount;
        log' := log'[j := t.(deposited := true)];
      }
      j := j + 1;
    }
    assert log[..j] == log;
  }

  /** An effect that counts a cashback record exactly when it is deposited. */
  predicate CountsDeposited(effect: Txn -> int, log: seq<Txn>)
  {
    forall i | 0 <= i < |log| :: IsDueCashbackAt(log, i) ==>
      effect(log[i].(deposited := true)) == effect(log[i]) + log[i].amount
  }

  predicate IsDueCashbackAt(log: seq<Txn>, i: int)
    requires 0 <= i < |log|
  {
    log[i].operation == "cashback" && !log[i].deposited
  }

  /** Draining credits exactly the due cashback: the effect-sum of the
      drained log is the old one plus `DueSum`. */
  lemma DrainCredits(effect: Txn -> int, log: seq<Txn>, ts: int)
    requires CountsDeposited(effect, log)
    ensures Total(effect, DrainLog(log, ts)) == Total(effect, log) + DueSum(log, ts)
  {
    var settled := (t: Txn) => effect(Settle(t, ts));
    TotalPointwise(effect, settled, DrainLog(log, ts), log);
    forall i | 0 <= i < |log| ensures settled(log[i]) == effect(log[i]) + DueAmount(ts)(log[i]) {
      if IsDueCashback(log[i], ts) {
        assert IsDueCashbackAt(log, i);
      }
    }
    TotalLinear(effect, DueAmount(ts), settled, log);
  }

  // ---------------------------------------------------------------------
  // Yejin's and DaQuawn's vocabulary

  /** `operation == 'transferred out' or operation.startswith('payment')`. */
  predicate IsOutgoing(t: Txn)
  {
    t.operation == "transferred out" || StartsWith(t.operation, "payment")
  }

  /** `operation.startswith('payment')`: a payment record. */
  predicate IsPayment(t: Txn)
  {
    StartsWith(t.operation, "payment")
  }

  /** What a record contributes to the running balance: deposits, incoming
      transfers and deposited cashback add; outgoing transfers and
      payments subtract; an undeposited cashback record counts nothing yet. */
  function LiveEffect(t: Txn): int
  {
    if t.operation == "deposited" || t.operation == "transferred in" then t.amount
    else if t.operation == "cashback" then (if t.deposited then t.amount else 0)
    else if IsOutgoing(t) then -t.amount
    else 0
  }

  /** A payment record subtracts its amount, counts as spending and as one
      payment. */
  lemma PaymentRecordEffect(t: Txn)
    requires IsPayment(t)
    ensures LiveEffect(t) == -t.amount
    ensures OutgoingAmount(t) == t.amount
    ensures PaymentFlag(t) == 1
  {
    assert t.operation[0] == 'p';
  }

  /** The balance that the log accounts for. */
  function LiveBalance(log: seq<Txn>): int
  {
    Total(LiveEffect, log)
  }

  /** The amount a record adds to `top_spenders`' total. */
  function OutgoingAmount(t: Txn): int
  {
    if IsOutgoing(t) then t.amount else 0
  }

  function Outgoing(log: seq<Txn>): int
  {
    Total(OutgoingAmount, log)
  }

  function PaymentFlag(t: Txn): int
  {
    if IsPayment(t) then 1 else 0
  }

  /** The number of payment records in a log. */
  function PaymentRecords(log: seq<Txn>): int
  {
    Total(PaymentFlag, log)
  }

  /** The drain keeps the log's account of the balance in step with the
      credited balance. */
  lemma LiveBalanceAfterDrain(log: seq<Txn>, ts: int)
    ensures LiveBalance(DrainLog(log, ts)) == LiveBalance(log) + DueSum(log, ts)
  {
    forall i | 0 <= i < |log| && IsDueCashbackAt(log, i)
      ensures LiveEffect(log[i].(deposited := true)) == LiveEffect(log[i]) + log[i].amount
    {
      NotPaymentName("cashback");
    }
    DrainCredits(LiveEffect, log, ts);
  }

  /** Cashback is not spending: the drain changes no outgoing total and no
      payment count. */
  lemma DrainKeepsSpending(log: seq<Txn>, ts: int)
    ensures Outgoing(DrainLog(log, ts)) == Outgoing(log)
    ensures PaymentRecords(DrainLog(log, ts)) == PaymentRecords(log)
  {
    TotalPointwise(OutgoingAmount, OutgoingAmount, DrainLog(log, ts), log);
    TotalPointwise(PaymentFlag, PaymentFlag, DrainLog(log, ts), log);
  }

  /** `get_payment_status`'s first loop: some record's operation is the
      payment string. */
  predicate HasOperation(log: seq<Txn>, op: string)
  {
    exists i | 0 <= i < |log| :: log[i].operation == op
  }

  /** `get_payment_status`'s second loop: the first cashback record that
      refers to `payment`. */
  function FirstCashbackFor(log: seq<Txn>, payment: string): (r: Option<nat>)
    ensures r.Some? ==> r.value < |log| && log[r.value].operation == "cashback" && log[r.value].payment == Some(payment)
    ensures r.Some? ==> forall j | 0 <= j < r.value :: !(log[j].operation == "cashback" && log[j].payment == Some(payment))
    ensures r.None? ==> forall j | 0 <= j < |log| :: !(log[j].operation == "cashback" && log[j].payment == Some(payment))
  {
    if log == [] then None
    else if log[0].operation == "cashback" && log[0].payment == Some(payment) then Some(0)
    else match FirstCashbackFor(log[1..], payment)
      case None => None
      case Some(k) => Some(k + 1)
  }

  /** The answer of `get_payment_status` on an account's log: None unless
      some record's operation equals `payment`; otherwise read off the first
      cashback record for `payment` (None when there is none). */
  function StatusInLog(log: seq<Txn>, payment: string): Option<PaymentStatus>
  {
    if !HasOperation(log, payment) then None
    else match FirstCashbackFor(log, payment)
      case None => None
      case Some(k) => Some(if log[k].deposited then CashbackReceived else InProgress)
  }

  /** A drain at a later time subsumes one at an earlier time. */
  lemma DrainCompose(log: seq<Txn>, t1: int, t2: int)
    requires t1 <= t2
    ensures DrainLog(DrainLog(log, t1), t2) == DrainLog(log, t2)
  {
  }

  /** The life of a payment's status: once `pay` has logged a fresh payment
      `pid` and its cashback (whatever is logged before or after, so long as
      it does not name `pid`), the status read after a drain at `t` is
      IN_PROGRESS before the cashback is due and CASHBACK_RECEIVED from then
      on. */
  lemma PaidStatus(log: seq<Txn>, later: seq<Txn>, ts: int, amount: int, cash: int, pid: string, t: int)
    requires !Mentions(log, pid) && !Mentions(later, pid)
    ensures var full := log + [Plain(ts, pid, amount), PendingCashback(ts + MillisecondsInDay, cash, pid)] + later;
      StatusInLog(DrainLog(full, t), pid) == Some(if ts + MillisecondsInDay <= t then CashbackReceived else InProgress)
  {
    var full := log + [Plain(ts, pid, amount), PendingCashback(ts + MillisecondsInDay, cash, pid)] + later;
    var d := DrainLog(full, t);
    var n := |log|;
    assert d[n].operation == pid;
    assert HasOperation(d, pid);
    forall j | 0 <= j < |d| && j != n + 1
      ensures !(d[j].operation == "cashback" && d[j].payment == Some(pid))
    {
      if j < n {
        assert full[j] == log[j];
      } else if j > n + 1 {
        assert full[j] == later[j - n - 2];
      }
    }
    assert d[n + 1].operation == "cashback" && d[n + 1].payment == Some(pid);
    match FirstCashbackFor(d, pid)
    case None =>
      assert false;
    case Some(k) =>
      assert k == n + 1;
  }

  /** Yejin's `get_balance` classification, for records up to `timeAt`:
      deposits, incoming transfers and cashback add, whether or not the
      cashback has been deposited yet; outgoing transfers and payments
      subtract. */
  function HistoricAmount(timeAt: int): Txn -> int
  {
    (t: Txn) =>
      if t.timestamp > timeAt then 0
      else if t.operation in {"deposited", "transferred in", "cashback"} then t.amount
      else if IsOutgoing(t) then -t.amount
      else 0
  }

  /** The balance rebuilt from the log as of `timeAt`. */
  function HistoricBalance(log: seq<Txn>, timeAt: int): int
  {
    Total(HistoricAmount(timeAt), log)
  }

  /** The historical fold ignores the deposited flag, so no drain changes a
      past balance. */
  lemma HistoryIgnoresDrain(log: seq<Txn>, ts: int, timeAt: int)
    ensures HistoricBalance(DrainLog(log, ts), timeAt) == HistoricBalance(log, timeAt)
  {
    TotalPointwise(HistoricAmount(timeAt), HistoricAmount(timeAt), DrainLog(log, ts), log);
  }

  /** Rebuilding the balance as of `now` gives the running balance when the
      log is up to date at `now`: every record but a pending cashback lies
      at or before `now`, every cashback due by `now` has been deposited and
      none due later has. */
  lemma HistoricMatchesLive(log: seq<Txn>, now: int)
    requires forall i | 0 <= i < |log| :: log[i].timestamp <= now || log[i].operation == "cashback"
    requires forall i | 0 <= i < |log| :: log[i].operation == "cashback" ==>
      (log[i].deposited <==> log[i].timestamp <= now)
    ensures HistoricBalance(log, now) == LiveBalance(log)
  {
    forall i | 0 <= i < |log| ensures HistoricAmount(now)(log[i]) == LiveEffect(log[i]) {
      NotPaymentName("cashback");
    }
    TotalPointwise(HistoricAmount(now), LiveEffect, log, log);
  }

  // ---------------------------------------------------------------------
  // Accounts {"balance", "transactions"} (Yejin, DaQuawn, the interface)

  datatype Account = Account(balance: int, transactions: seq<Txn>)

  /** The cached balance is the log's account of it. */
  predicate Consistent(a: Account)
  {
    a.balance == LiveBalance(a.transactions)
  }

  /** An account after the drain at `ts`: due cashback flagged and credited. */
  function DrainAccount(a: Account, ts: int): (r: Account)
    ensures Consistent(a) ==> Consistent(r)
  {
    LiveBalanceAfterDrain(a.transactions, ts);
    Account(a.balance + DueSum(a.transactions, ts), DrainLog(a.transactions, ts))
  }

  /** `_process_cashbacks(ts)` on every account. */
  function DrainAll(accounts: map<string, Account>, ts: int): (r: map<string, Account>)
    ensures r.Keys == accounts.Keys
  {
    map id | id in accounts :: DrainAccount(accounts[id], ts)
  }

  /** A drain at a time when no account holds a due cashback leaves every
      account as it was. */
  lemma QuietDrain(accounts: map<string, Account>, ts: int)
    requires forall id, i | id in accounts && 0 <= i < |accounts[id].transactions| ::
      !IsDueCashback(accounts[id].transactions[i], ts)
    ensures DrainAll(accounts, ts) == accounts
  {
    forall id | id in accounts ensures DrainAccount(accounts[id], ts) == accounts[id] {
      NothingDue(accounts[id].transactions, ts);
    }
  }

  /** Outgoing totals per account, as `top_spenders` computes them. */
  function Spending(accounts: map<string, Account>): (r: map<string, int>)
    ensures r.Keys == accounts.Keys
  {
    map id | id in accounts :: Outgoing(accounts[id].transactions)
  }

  /** Survivor of a merge whose log is extended by the donor's log. */
  function Absorb(a1: Account, a2: Account): Account
  {
    Account(a1.balance + a2.balance, a1.transactions + a2.transactions)
  }

  /** Merging keeps the log's account of the balance, and the donor's
      pending cashback now lands in the survivor: draining the merged
      account is merging the two drained accounts. */
  lemma AbsorbThenDrain(a1: Account, a2: Account, ts: int)
    ensures Consistent(a1) && Consistent(a2) ==> Consistent(Absorb(a1, a2))
    ensures DrainAccount(Absorb(a1, a2), ts) == Absorb(DrainAccount(a1, ts), DrainAccount(a2, ts))
  {
    TotalAppend(LiveEffect, a1.transactions, a2.transactions);
    DueSumAppend(a1.transactions, a2.transactions, ts);
  }

  /** Number of payment records in the accounts listed by `ids`. */
  function PaymentsIn(ids: seq<string>, accounts: map<string, Account>): int
    requires forall id | id in ids :: id in accounts
  {
    if ids == [] then 0
    else PaymentRecords(accounts[ids[0]].transactions) + PaymentsIn(ids[1..], accounts)
  }

  lemma {:induction false} PaymentsInSnoc(ids: seq<string>, id: string, accounts: map<string, Account>)
    requires forall id | id in ids :: id in accounts
    requires id in accounts
    ensures PaymentsIn(ids + [id], accounts) == PaymentsIn(ids, accounts) + PaymentRecords(accounts[id].transactions)
  {
    if ids != [] {
      assert (ids + [id])[1..] == ids[1..] + [id];
      PaymentsInSnoc(ids[1..], id, accounts);
    }
  }

  /** Accounts with equally many payment records count the same. */
  lemma {:induction false} PaymentsInFrame(ids: seq<string>, m: map<string, Account>, m': map<string, Account>)
    requires forall x | x in ids :: x in m && x in m'
    requires forall x | x in ids :: PaymentRecords(m[x].transactions) == PaymentRecords(m'[x].transactions)
    ensures PaymentsIn(ids, m) == PaymentsIn(ids, m')
  {
    if ids != [] {
      PaymentsInFrame(ids[1..], m, m');
    }
  }

  /** Replacing one listed account changes the count by the difference. */
  lemma {:induction false} PaymentsInUpdate(ids: seq<string>, m: map<string, Account>, id: string, a: Account)
    requires Distinct(ids) && id in ids
    requires forall x | x in ids :: x in m
    ensures PaymentsIn(ids, m[id := a]) ==
      PaymentsIn(ids, m) - PaymentRecords(m[id].transactions) + PaymentRecords(a.transactions)
  {
    if ids[0] == id {
      assert id !in ids[1..] by {
        forall i | 0 <= i < |ids[1..]| ensures ids[1..][i] != id { assert ids[i + 1] != ids[0]; }
      }
      PaymentsInFrame(ids[1..], m, m[id := a]);
    } else {
      PaymentsInUpdate(ids[1..], m, id, a);
    }
  }

  /** Counting without one listed account misses exactly its records. */
  lemma {:induction false} PaymentsInRemove(ids: seq<string>, m: map<string, Account>, id: string)
    requires Distinct(ids) && id in ids
    requires forall x | x in ids :: x in m
    ensures PaymentsIn(ids, m) == PaymentRecords(m[id].transactions) + PaymentsIn(Remove(ids, id), m)
  {
    if ids[0] != id {
      PaymentsInRemove(ids[1..], m, id);
    }
  }

  /** The drain leaves the number of payment records unchanged. */
  lemma PaymentsInDrain(ids: seq<string>, m: map<string, Account>, ts: int)
    requires forall x | x in ids :: x in m
    ensures PaymentsIn(ids, DrainAll(m, ts)) == PaymentsIn(ids, m)
  {
    forall x | x in ids
      ensures PaymentRecords(m[x].transactions) == PaymentRecords(DrainAll(m, ts)[x].transactions)
    {
      DrainKeepsSpending(m[x].transactions, ts);
    }
    PaymentsInFrame(ids, m, DrainAll(m, ts));
  }

  // ---------------------------------------------------------------------
  // The ledger invariant of an accounts dict kept beside its key order

  /** `ids` lists the keys of `accounts` once each, in insertion order. */
  ghost predicate Keyed(ids: seq<string>, accounts: map<string, Account>)
  {
    Distinct(ids) && (forall id :: id in ids <==> id in accounts)
  }

  /** Only `pay` writes payment and cashback records, and it names them
      after the counter: every payment record is some `"payment<k>"` and
      every cashback record refers to one, with `k` among those issued. */
  predicate Named(t: Txn, issued: int)
  {
    && (IsPayment(t) ==> IssuedName(t.operation, issued))
    && (t.operation == "cashback" ==> t.payment.Some? && IssuedName(t.payment.value, issued))
  }

  predicate LogNamed(log: seq<Txn>, issued: int)
  {
    forall i | 0 <= i < |log| :: Named(log[i], issued)
  }

  /** Some record of the log is the payment `p` or a cashback for it. */
  predicate Mentions(log: seq<Txn>, p: string)
  {
    exists i | 0 <= i < |log| :: log[i].operation == p || (log[i].operation == "cashback" && log[i].payment == Some(p))
  }

  /** No record names the next payment identifier yet. */
  lemma NextIsFresh(log: seq<Txn>, issued: nat)
    requires LogNamed(log, issued)
    ensures !Mentions(log, PaymentId(issued + 1))
  {
    var p := PaymentId(issued + 1);
    forall i | 0 <= i < |log|
      ensures !(log[i].operation == p || (log[i].operation == "cashback" && log[i].payment == Some(p)))
    {
      if log[i].operation == p {
        PaymentIdIsPayment(issued + 1);
        assert Named(log[i], issued);
        FreshName(log[i].operation, issued);
      } else if log[i].operation == "cashback" && log[i].payment == Some(p) {
        assert Named(log[i], issued);
        FreshName(p, issued);
      }
    }
  }

  /** An account whose cached balance is its log's account and whose
      records are named after issued payments. */
  predicate AccountOk(a: Account, issued: int)
  {
    Consistent(a) && LogNamed(a.transactions, issued)
  }

  /** Every account is in order, and the payment records across all
      accounts number `issued`. */
  ghost predicate Sound(ids: seq<string>, accounts: map<string, Account>, issued: int)
  {
    && Keyed(ids, accounts)
    && (forall id {:trigger AccountOk(accounts[id], issued)} | id in accounts :: AccountOk(accounts[id], issued))
    && PaymentsIn(ids, accounts) == issued
  }

  /** An account after an operation adds `delta` and logs `recs`. */
  function Extend(a: Account, delta: int, recs: seq<Txn>): Account
  {
    Account(a.balance + delta, a.transactions + recs)
  }

  lemma TotalSingle(f: Txn -> int, t: Txn)
    ensures Total(f, [t]) == f(t)
  {
    assert [t][..0] == [];
  }

  lemma TotalPair(f: Txn -> int, t: Txn, u: Txn)
    ensures Total(f, [t, u]) == f(t) + f(u)
  {
    assert [t, u][..1] == [t];
    TotalSingle(f, t);
  }

  /** A record that is neither a payment nor a cashback: named whatever
      has been issued, and counted as no payment. */
  lemma PlainRecord(ts: int, op: string, amount: int, issued: int)
    requires op != [] && op[0] != 'p' && op != "cashback"
    ensures LogNamed([Plain(ts, op, amount)], issued)
    ensures PaymentRecords([Plain(ts, op, amount)]) == 0
    ensures LiveBalance([Plain(ts, op, amount)]) == LiveEffect(Plain(ts, op, amount))
  {
    NotPaymentName(op);
    TotalSingle(PaymentFlag, Plain(ts, op, amount));
    TotalSingle(LiveEffect, Plain(ts, op, amount));
  }

  lemma DrainAllSound(ids: seq<string>, accounts: map<string, Account>, issued: int, ts: int)
    requires Sound(ids, accounts, issued)
    ensures Sound(ids, DrainAll(accounts, ts), issued)
  {
    PaymentsInDrain(ids, accounts, ts);
    var m := DrainAll(accounts, ts);
    forall x | x in m ensures AccountOk(m[x], issued) {
      assert AccountOk(accounts[x], issued);
    }
  }

  /** Records named by what has been issued stay named as more is issued. */
  lemma LogNamedLater(log: seq<Txn>, issued: int, issued': int)
    requires LogNamed(log, issued) && issued <= issued'
    ensures LogNamed(log, issued')
  {
    forall i | 0 <= i < |log| ensures Named(log[i], issued') {
      assert Named(log[i], issued);
    }
  }

  /** Two named logs put together are named. */
  lemma LogNamedAppend(a: seq<Txn>, b: seq<Txn>, issued: int)
    requires LogNamed(a, issued) && LogNamed(b, issued)
    ensures LogNamed(a + b, issued)
  {
    forall i | 0 <= i < |a + b| ensures Named((a + b)[i], issued) {
      if i < |a| {
        assert (a + b)[i] == a[i];
      } else {
        assert (a + b)[i] == b[i - |a|];
      }
    }
  }

  /** An account in order that logs records making up the change in its
      balance stays in order. */
  lemma ExtendOk(a: Account, delta: int, recs: seq<Txn>, issued: int, issued': int)
    requires AccountOk(a, issued) && issued <= issued'
    requires LiveBalance(recs) == delta && LogNamed(recs, issued')
    ensures AccountOk(Extend(a, delta, recs), issued')
  {
    TotalAppend(LiveEffect, a.transactions, recs);
    LogNamedLater(a.transactions, issued, issued');
    LogNamedAppend(a.transactions, recs, issued');
  }

  /** The accounts other than `id` are in order whatever `id` now holds. */
  lemma OthersOk(accounts: map<string, Account>, issued: int, issued': int, id: string, a: Account)
    requires forall x {:trigger AccountOk(accounts[x], issued)} | x in accounts :: AccountOk(accounts[x], issued)
    requires issued <= issued' && AccountOk(a, issued')
    ensures forall x {:trigger AccountOk(accounts[id := a][x], issued')} | x in accounts[id := a] ::
      AccountOk(accounts[id := a][x], issued')
  {
    var m := accounts[id := a];
    forall x | x in m ensures AccountOk(m[x], issued') {
      if x != id {
        assert AccountOk(accounts[x], issued);
        LogNamedLater(accounts[x].transactions, issued, issued');
      }
    }
  }

  /** Logging records whose effect is the change made to the balance keeps
      the invariant, and counts the payment records among them. */
  lemma ExtendSound(ids: seq<string>, accounts: map<string, Account>, issued: int,
                    id: string, delta: int, recs: seq<Txn>)
    requires Sound(ids, accounts, issued) && id in accounts
    requires LiveBalance(recs) == delta
    requires PaymentRecords(recs) >= 0 && LogNamed(recs, issued + PaymentRecords(recs))
    ensures Sound(ids, accounts[id := Extend(accounts[id], delta, recs)], issued + PaymentRecords(recs))
  {
    var a := accounts[id];
    var issued' := issued + PaymentRecords(recs);
    assert AccountOk(a, issued);
    ExtendOk(a, delta, recs, issued, issued');
    OthersOk(accounts, issued, issued', id, Extend(a, delta, recs));
    TotalAppend(PaymentFlag, a.transactions, recs);
    PaymentsInUpdate(ids, accounts, id, Extend(a, delta, recs));
  }

  /** A new account with only its "created account" record keeps the
      invariant. */
  lemma CreateSound(ids: seq<string>, accounts: map<string, Account>, issued: int, id: string, ts: int)
    requires Sound(ids, accounts, issued) && id !in accounts
    ensures Sound(ids + [id], accounts[id := Account(0, [Plain(ts, "created account", 0)])], issued)
  {
    var created := Account(0, [Plain(ts, "created account", 0)]);
    var m := accounts[id := created];
    NotPaymentName("created account");
    TotalSingle(LiveEffect, Plain(ts, "created account", 0));
    TotalSingle(PaymentFlag, Plain(ts, "created account", 0));
    PaymentsInFrame(ids, accounts, m);
    PaymentsInSnoc(ids, id, m);
    assert Distinct(ids + [id]);
    forall x | x in m ensures AccountOk(m[x], issued) {
      if x != id {
        assert AccountOk(accounts[x], issued);
      }
    }
  }

  /** The two records `pay` logs: the payment under its identifier and
      the undeposited 2% cashback due one day later. */
  function PayRecords(ts: int, pid: string, amount: int): seq<Txn>
  {
    [Plain(ts, pid, amount), PendingCashback(ts + MillisecondsInDay, TruncCashback(amount), pid)]
  }

  /** Paying from an account under the next identifier keeps the invariant
      with one more payment issued, and that identifier was unused. */
  lemma PaySound(ids: seq<string>, accounts: map<string, Account>, issued: nat, id: string, ts: int, amount: int)
    requires Sound(ids, accounts, issued) && id in accounts
    ensures Sound(ids, accounts[id := Extend(accounts[id], -amount, PayRecords(ts, PaymentId(issued + 1), amount))], issued + 1)
    ensures forall x | x in accounts :: !Mentions(accounts[x].transactions, PaymentId(issued + 1))
  {
    var pid := PaymentId(issued + 1);
    var added := PayRecords(ts, pid, amount);
    forall x | x in accounts ensures !Mentions(accounts[x].transactions, pid) {
      assert AccountOk(accounts[x], issued);
      NextIsFresh(accounts[x].transactions, issued);
    }
    IssuedNameOf(issued + 1, issued + 1);
    PaymentIdIsPayment(issued + 1);
    PaymentRecordEffect(added[0]);
    NotPaymentName("cashback");
    TotalPair(LiveEffect, added[0], added[1]);
    TotalPair(PaymentFlag, added[0], added[1]);
    ExtendSound(ids, accounts, issued, id, -amount, added);
  }

  /** The key list without `id2` lists the keys of the map without `id2`. */
  lemma KeyedRemove(ids: seq<string>, accounts: map<string, Account>, id1: string, id2: string, a: Account)
    requires Keyed(ids, accounts) && id1 in accounts && id1 != id2
    ensures Keyed(Remove(ids, id2), accounts[id1 := a] - {id2})
  {
  }

  /** The payment count over the merged accounts is the old one. */
  lemma PaymentsInMerge(ids: seq<string>, accounts: map<string, Account>, id1: string, id2: string)
    requires Keyed(ids, accounts)
    requires id1 != id2 && id1 in accounts && id2 in accounts
    ensures PaymentsIn(Remove(ids, id2), accounts[id1 := Absorb(accounts[id1], accounts[id2])] - {id2})
         == PaymentsIn(ids, accounts)
  {
    var merged := Absorb(accounts[id1], accounts[id2]);
    TotalAppend(PaymentFlag, accounts[id1].transactions, accounts[id2].transactions);
    var rest := Remove(ids, id2);
    PaymentsInRemove(ids, accounts, id2);
    PaymentsInUpdate(rest, accounts, id1, merged);
    PaymentsInFrame(rest, accounts[id1 := merged], accounts[id1 := merged] - {id2});
  }

  /** After a merge `top_spenders` sees the survivor with the outgoing money
      of both accounts, no donor, and every other total unchanged. */
  lemma MergedSpending(m: map<string, Account>, id1: string, id2: string)
    requires id1 != id2 && id1 in m && id2 in m
    ensures var r := Spending(m[id1 := Absorb(m[id1], m[id2])] - {id2});
      && r.Keys == m.Keys - {id2}
      && r[id1] == Spending(m)[id1] + Spending(m)[id2]
      && forall id | id in r && id != id1 :: r[id] == Spending(m)[id]
  {
    TotalAppend(OutgoingAmount, m[id1].transactions, m[id2].transactions);
  }

  /** Records before a log that never name `p` do not change whether some
      record's operation is `p`. */
  lemma HasOperationJoin(log1: seq<Txn>, log2: seq<Txn>, p: string)
    requires !Mentions(log1, p)
    ensures HasOperation(log1 + log2, p) <==> HasOperation(log2, p)
  {
    var j := log1 + log2;
    if HasOperation(j, p) {
      var i :| 0 <= i < |j| && j[i].operation == p;
      assert i >= |log1| && log2[i - |log1|] == j[i];
    }
    if HasOperation(log2, p) {
      var i :| 0 <= i < |log2| && log2[i].operation == p;
      assert j[|log1| + i] == log2[i];
    }
  }

  /** An index found `n` records further into a log. */
  function Shifted(o: Option<nat>, n: nat): Option<nat>
  {
    match o
    case None => None
    case Some(k) => Some(k + n)
  }

  /** A leading record that is not a cashback for `p` moves the first
      cashback for `p` one place down. */
  lemma FirstCashbackCons(t: Txn, rest: seq<Txn>, p: string)
    requires !(t.operation == "cashback" && t.payment == Some(p))
    ensures FirstCashbackFor([t] + rest, p) == Shifted(FirstCashbackFor(rest, p), 1)
  {
    assert ([t] + rest)[1..] == rest;
  }

  /** Records before a log that never name `p` do not change which
      cashback record for `p` comes first, up to the shift. */
  lemma {:induction false} FirstCashbackJoin(log1: seq<Txn>, log2: seq<Txn>, p: string)
    requires !Mentions(log1, p)
    ensures FirstCashbackFor(log1 + log2, p) == Shifted(FirstCashbackFor(log2, p), |log1|)
    decreases |log1|
  {
    if log1 == [] {
      assert log1 + log2 == log2;
    } else {
      var rest := log1[1..];
      assert log1 + log2 == [log1[0]] + (rest + log2);
      assert !(log1[0].operation == "cashback" && log1[0].payment == Some(p));
      FirstCashbackJoin(rest, log2, p);
      FirstCashbackCons(log1[0], rest + log2, p);
    }
  }

  /** A merge keeps the donor's payments answerable on the survivor: for a
      payment the survivor's own log never names, the joined log answers as
      the donor's log did. */
  lemma StatusAfterAbsorb(log1: seq<Txn>, log2: seq<Txn>, p: string)
    requires !Mentions(log1, p)
    ensures StatusInLog(log1 + log2, p) == StatusInLog(log2, p)
  {
    HasOperationJoin(log1, log2, p);
    FirstCashbackJoin(log1, log2, p);
    var g := FirstCashbackFor(log2, p);
    if g.Some? {
      assert (log1 + log2)[|log1| + g.value] == log2[g.value];
    }
  }

  /** Merging `id2` into `id1` and deleting `id2` keeps the invariant. */
  lemma MergeSound(ids: seq<string>, accounts: map<string, Account>, issued: int, id1: string, id2: string)
    requires Sound(ids, accounts, issued)
    requires id1 != id2 && id1 in accounts && id2 in accounts
    ensures Sound(Remove(ids, id2), accounts[id1 := Absorb(accounts[id1], accounts[id2])] - {id2}, issued)
  {
    var a1, a2 := accounts[id1], accounts[id2];
    var merged := Absorb(a1, a2);
    assert AccountOk(a1, issued) && AccountOk(a2, issued);
    AbsorbThenDrain(a1, a2, 0);
    LogNamedAppend(a1.transactions, a2.transactions, issued);
    OthersOk(accounts, issued, issued, id1, merged);
    KeyedRemove(ids, accounts, id1, id2, merged);
    PaymentsInMerge(ids, accounts, id1, id2);
    var m := accounts[id1 := merged];
    forall x | x in m - {id2} ensures AccountOk((m - {id2})[x], issued) {
      assert AccountOk(m[x], issued);
    }
  }

  /** The accounts after `transfer` moved `amount` from `source` to `target`. */
  function Transferred(m: map<string, Account>, ts: int, source: string, target: string, amount: int): map<string, Account>
    requires source in m && target in m
  {
    m[source := Extend(m[source], -amount, [Plain(ts, "transferred out", amount)])]
     [target := Extend(m[target], amount, [Plain(ts, "transferred in", amount)])]
  }

  /** A transfer between two distinct accounts conserves their combined
      balance, logs one record on each side and touches no other account. */
  lemma TransferConserves(m: map<string, Account>, ts: int, source: string, target: string, amount: int)
    requires source in m && target in m && source != target
    ensures var r := Transferred(m, ts, source, target, amount);
      && r.Keys == m.Keys
      && r[source].balance + r[target].balance == m[source].balance + m[target].balance
      && r[source].balance == m[source].balance - amount
      && |r[source].transactions| == |m[source].transactions| + 1
      && |r[target].transactions| == |m[target].transactions| + 1
      && forall id | id in m && id != source && id != target :: r[id] == m[id]
  {
  }
}
