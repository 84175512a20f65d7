// Shivani/banking_system_impl.py: all four levels. A merge copies the
// donor's records into the survivor, tagged with the merge time, and only
// marks the donor as merged ("soft delete"): the donor keeps its balance
// and log, every operation treats it as absent, the drain skips it, and
// `create_account` may reuse its id.

module ShivaniFull {
  import opened Common
  import opened LogLedger
  import Ranking

  /** An account dict: "balance", "transactions", "creation_time" and the
      optional "merged_at" that marks a merged-away account. */
  datatype Acct = Acct(balance: int, transactions: seq<Txn>, creationTime: int, mergedAt: Option<int>)

  predicate Active(a: Acct)
  {
    a.mergedAt.None?
  }

  // ---------------------------------------------------------------------
  // Record vocabulary: "deposit", "transfer_in", "transfer_out",
  // "payment<k>" and "cashback" (with "related_payment" and "deposited").

  predicate IsSpending(t: Txn)
  {
    t.operation == "transfer_out" || StartsWith(t.operation, "payment")
  }

  /** What a record has done to the balance so far: the running balance
      counts a cashback record once it is deposited. */
  function LiveAmount(t: Txn): int
  {
    if t.operation == "deposit" || t.operation == "transfer_in" then t.amount
    else if IsSpending(t) then -t.amount
    else if t.operation == "cashback" then (if t.deposited then t.amount else 0)
    else 0
  }

  function Live(log: seq<Txn>): int
  {
    Total(LiveAmount, log)
  }

  /** The amount a record adds to `top_spenders`' total. */
  function SpentAmount(t: Txn): int
  {
    if IsSpending(t) then t.amount else 0
  }

  function Spent(log: seq<Txn>): int
  {
    Total(SpentAmount, log)
  }

  /** The classification of `get_balance` at `timeAt`: a record counts when
      it is not later than `timeAt` and, if it was copied in by a merge, the
      merge is not later either; a cashback record counts whether or not it
      has been deposited. */
  function AsOfAmount(timeAt: int): Txn -> int
  {
    (t: Txn) =>
      if t.timestamp > timeAt then 0
      else if t.mergedAt.Some? && t.mergedAt.value > timeAt then 0
      else if t.operation == "deposit" || t.operation == "transfer_in" then t.amount
      else if IsSpending(t) then -t.amount
      else if t.operation == "cashback" then t.amount
      else 0
  }

  function History(log: seq<Txn>, timeAt: int): int
  {
    Total(AsOfAmount(timeAt), log)
  }

  /** A record that is no payment and no cashback adds `LiveAmount` to the
      balance, nothing to the payment names, and is named at any count. */
  lemma OrdinaryRecord(t: Txn, issued: int)
    requires t.operation != [] && t.operation[0] != 'p' && t.operation != "cashback"
    ensures Live([t]) == LiveAmount(t)
    ensures LogNamed([t], issued)
  {
    NotPaymentName(t.operation);
    TotalSingle(LiveAmount, t);
  }

  /** The two records of `transfer` move `amount` out of one balance and
      into the other. */
  lemma TransferRecords(ts: int, amount: int, issued: int)
    ensures Live([Plain(ts, "transfer_out", amount)]) == -amount
    ensures Live([Plain(ts, "transfer_in", amount)]) == amount
    ensures LogNamed([Plain(ts, "transfer_out", amount)], issued)
    ensures LogNamed([Plain(ts, "transfer_in", amount)], issued)
  {
    OrdinaryRecord(Plain(ts, "transfer_out", amount), issued);
    OrdinaryRecord(Plain(ts, "transfer_in", amount), issued);
  }

  // ---------------------------------------------------------------------
  // The invariant: every account's balance is its log's running balance and
  // every payment name in any log was issued by the counter.

  predicate AcctOk(a: Acct, issued: int)
  {
    a.balance == Live(a.transactions) && LogNamed(a.transactions, issued)
  }

  ghost predicate BankSound(accounts: map<string, Acct>, issued: int)
  {
    forall id | id in accounts :: AcctOk(accounts[id], issued)
  }

  lemma SoundLater(accounts: map<string, Acct>, issued: int, issued': int)
    requires BankSound(accounts, issued) && issued <= issued'
    ensures BankSound(accounts, issued')
  {
    forall id | id in accounts ensures AcctOk(accounts[id], issued') {
      LogNamedLater(accounts[id].transactions, issued, issued');
    }
  }

  /** The in-place `append` and `+=` of the operations. */
  function Logged(a: Acct, delta: int, recs: seq<Txn>): Acct
  {
    a.(balance := a.balance + delta, transactions := a.transactions + recs)
  }

  /** An account that logs records whose running effect is `delta` and
      whose payment names were issued stays in order. */
  lemma ExtendAcctOk(a: Acct, delta: int, recs: seq<Txn>, issued: int)
    requires AcctOk(a, issued) && Live(recs) == delta && LogNamed(recs, issued)
    ensures AcctOk(Logged(a, delta, recs), issued)
  {
    TotalAppend(LiveAmount, a.transactions, recs);
    LogNamedAppend(a.transactions, recs, issued);
  }

  // ---------------------------------------------------------------------
  // The drain

  /** `_process_cashbacks` on one account: a merged account is skipped;
      an active one has its due cashback flagged and credited. */
  function DrainAcct(a: Acct, ts: int): (r: Acct)
    ensures r.creationTime == a.creationTime && r.mergedAt == a.mergedAt
    ensures !Active(a) ==> r == a
  {
    if Active(a) then a.(balance := a.balance + DueSum(a.transactions, ts), transactions := DrainLog(a.transactions, ts))
    else a
  }

  function DrainBank(accounts: map<string, Acct>, ts: int): (r: map<string, Acct>)
    ensures r.Keys == accounts.Keys
  {
    map id | id in accounts :: DrainAcct(accounts[id], ts)
  }

  /** The drain credits exactly the due cashback of an active account and
      keeps its balance in step with its log. */
  lemma DrainAcctOk(a: Acct, ts: int, issued: int)
    requires AcctOk(a, issued)
    ensures AcctOk(DrainAcct(a, ts), issued)
    ensures Active(a) ==> DrainAcct(a, ts).balance == a.balance + DueSum(a.transactions, ts)
  {
    if Active(a) {
      var log := a.transactions;
      forall i | 0 <= i < |log| && IsDueCashbackAt(log, i)
        ensures LiveAmount(log[i].(deposited := true)) == LiveAmount(log[i]) + log[i].amount
      {
        NotPaymentName("cashback");
      }
      DrainCredits(LiveAmount, log, ts);
      var d := DrainLog(log, ts);
      forall i | 0 <= i < |d| ensures Named(d[i], issued) {
        assert Named(log[i], issued);
      }
    }
  }

  lemma DrainBankSound(accounts: map<string, Acct>, issued: int, ts: int)
    requires BankSound(accounts, issued)
    ensures BankSound(DrainBank(accounts, ts), issued)
  {
    forall id | id in accounts ensures AcctOk(DrainBank(accounts, ts)[id], issued) {
      DrainAcctOk(accounts[id], ts, issued);
    }
  }

  /** The drain part-way: the accounts in `rest` are still to be drained. */
  function DrainedBut(accounts: map<string, Acct>, rest: set<string>, ts: int): (r: map<string, Acct>)
    ensures r.Keys == accounts.Keys
  {
    map id | id in accounts :: if id in rest then accounts[id] else DrainAcct(accounts[id], ts)
  }

  lemma DrainedStep(accounts: map<string, Acct>, rest: set<string>, id: string, ts: int)
    requires id in rest && rest <= accounts.Keys
    ensures DrainedBut(accounts, rest, ts)[id := DrainAcct(accounts[id], ts)] == DrainedBut(accounts, rest - {id}, ts)
  {
  }

  /** A second drain at the same timestamp changes nothing: each cashback
      is credited at most once. */
  lemma DrainTwice(accounts: map<string, Acct>, ts: int)
    ensures DrainBank(DrainBank(accounts, ts), ts) == DrainBank(accounts, ts)
  {
    forall id | id in accounts ensures DrainAcct(DrainAcct(accounts[id], ts), ts) == DrainAcct(accounts[id], ts) {
      DrainIdempotent(accounts[id].transactions, ts);
    }
  }

  // ---------------------------------------------------------------------
  // Specification functions of the operations

  /** `top_spenders`' totals: the outgoing money of every active account. */
  function ActiveSpending(accounts: map<string, Acct>): (r: map<string, int>)
    ensures forall id :: id in r <==> id in accounts && Active(accounts[id])
  {
    map id | id in accounts && Active(accounts[id]) :: Spent(accounts[id].transactions)
  }

  /** The accounts after `transfer` moves `amount` from `source` to
      `target`, each side logging its record. */
  function Moved(m: map<string, Acct>, ts: int, source: string, target: string, amount: int): map<string, Acct>
    requires source in m && target in m
  {
    m[source := Logged(m[source], -amount, [Plain(ts, "transfer_out", amount)])]
     [target := Logged(m[target], amount, [Plain(ts, "transfer_in", amount)])]
  }

  /** A transfer between two distinct accounts keeps the bank sound. */
  lemma MovedSound(m: map<string, Acct>, ts: int, source: string, target: string, amount: int, issued: int)
    requires source in m && target in m && source != target && BankSound(m, issued)
    ensures BankSound(Moved(m, ts, source, target, amount), issued)
  {
    TransferRecords(ts, amount, issued);
    assert AcctOk(m[source], issued) && AcctOk(m[target], issued);
    ExtendAcctOk(m[source], -amount, [Plain(ts, "transfer_out", amount)], issued);
    ExtendAcctOk(m[target], amount, [Plain(ts, "transfer_in", amount)], issued);
  }

  /** Some cashback record for `payment` has been deposited. */
  predicate CashbackDeposited(log: seq<Txn>, payment: string)
  {
    exists i | 0 <= i < |log| :: log[i].operation == "cashback" && log[i].payment == Some(payment) && log[i].deposited
  }

  /** `get_payment_status` on an active account's log: None unless some
      record's operation is `payment`; CASHBACK_RECEIVED if some deposited
      cashback record refers to it, IN_PROGRESS otherwise. */
  function StatusOf(log: seq<Txn>, payment: string): (r: Option<PaymentStatus>)
    ensures r.None? <==> !HasOperation(log, payment)
    ensures r == Some(CashbackReceived) <==> HasOperation(log, payment) && CashbackDeposited(log, payment)
  {
    if !HasOperation(log, payment) then None
    else if CashbackDeposited(log, payment) then Some(CashbackReceived)
    else Some(InProgress)
  }

  /** Records that never name `p`, placed in front, leave its status alone. */
  lemma StatusPrefixed(log1: seq<Txn>, log2: seq<Txn>, p: string)
    requires !Mentions(log1, p)
    ensures StatusOf(log1 + log2, p) == StatusOf(log2, p)
  {
    var j := log1 + log2;
    if HasOperation(j, p) {
      var i :| 0 <= i < |j| && j[i].operation == p;
      assert i >= |log1| && log2[i - |log1|] == j[i];
    }
    if CashbackDeposited(j, p) {
      var i :| 0 <= i < |j| && j[i].operation == "cashback" && j[i].payment == Some(p) && j[i].deposited;
      assert i >= |log1| && log2[i - |log1|] == j[i];
    }
    if HasOperation(log2, p) {
      var i :| 0 <= i < |log2| && log2[i].operation == p;
      assert j[|log1| + i] == log2[i];
    }
    if CashbackDeposited(log2, p) {
      var i :| 0 <= i < |log2| && log2[i].operation == "cashback" && log2[i].payment == Some(p) && log2[i].deposited;
      assert j[|log1| + i] == log2[i];
    }
  }

  /** Tagged copies answer status queries as the originals do. */
  lemma StatusTagged(log: seq<Txn>, ts: int, p: string)
    ensures StatusOf(Tagged(log, ts), p) == StatusOf(log, p)
  {
    var copies := Tagged(log, ts);
    assert |copies| == |log|;
    if HasOperation(copies, p) {
      var i :| 0 <= i < |copies| && copies[i].operation == p;
      assert log[i].operation == p;
    }
    if CashbackDeposited(copies, p) {
      var i :| 0 <= i < |copies| && copies[i].operation == "cashback" && copies[i].payment == Some(p) && copies[i].deposited;
      assert log[i].operation == "cashback" && log[i].payment == Some(p) && log[i].deposited;
    }
    if HasOperation(log, p) {
      var i :| 0 <= i < |log| && log[i].operation == p;
      assert copies[i].operation == p;
    }
    if CashbackDeposited(log, p) {
      var i :| 0 <= i < |log| && log[i].operation == "cashback" && log[i].payment == Some(p) && log[i].deposited;
      assert copies[i].operation == "cashback" && copies[i].payment == Some(p) && copies[i].deposited;
    }
  }

  /** A merge keeps the donor's payments answerable on the survivor: for a
      payment the survivor's own log never names, its log with the tagged
      copies answers as the donor's log did. */
  lemma StatusAfterMerge(log1: seq<Txn>, log2: seq<Txn>, ts: int, p: string)
    requires !Mentions(log1, p)
    ensures StatusOf(log1 + Tagged(log2, ts), p) == StatusOf(log2, p)
  {
    StatusPrefixed(log1, Tagged(log2, ts), p);
    StatusTagged(log2, ts, p);
  }

  /** After `pay` logs a fresh payment, its status at a later drain is
      CASHBACK_RECEIVED exactly when the cashback has come due, and
      IN_PROGRESS before. */
  lemma PaidStatusOf(log: seq<Txn>, later: seq<Txn>, ts: int, amount: int, pid: string, t: int)
    requires !Mentions(log, pid) && !Mentions(later, pid)
    ensures StatusOf(DrainLog(log + PayRecords(ts, pid, amount) + later, t), pid) ==
      Some(if ts + MillisecondsInDay <= t then CashbackReceived else InProgress)
  {
    var full := log + PayRecords(ts, pid, amount) + later;
    var d := DrainLog(full, t);
    var n := |log|;
    assert d[n].operation == pid;
    assert HasOperation(d, pid);
    if ts + MillisecondsInDay <= t {
      assert d[n + 1].operation == "cashback" && d[n + 1].payment == Some(pid) && d[n + 1].deposited;
    } else {
      forall j | 0 <= j < |d| ensures !(d[j].operation == "cashback" && d[j].payment == Some(pid) && d[j].deposited) {
        if j < n {
          assert full[j] == log[j];
        } else if j > n + 1 {
          assert full[j] == later[j - n - 2];
        }
      }
    }
  }

  /** The accounts after merging `id2` into `id1` at `ts`. */
  function Merged(m: map<string, Acct>, id1: string, id2: string, ts: int): map<string, Acct>
    requires id1 in m && id2 in m
  {
    m[id1 := Logged(m[id1], m[id2].balance, Tagged(m[id2].transactions, ts))]
     [id2 := m[id2].(mergedAt := Some(ts))]
  }

  /** What `get_balance` answers for an account at `timeAt`. */
  function BalanceQuery(a: Acct, timeAt: int): Option<int>
  {
    if a.creationTime > timeAt then None
    else if a.mergedAt.Some? && timeAt >= a.mergedAt.value then None
    else Some(History(a.transactions, timeAt))
  }

  /** The records `pay` logs: the payment and its undeposited cashback. */
  lemma PayRecordsOk(ts: int, k: nat, amount: int)
    requires k >= 1
    ensures Live(PayRecords(ts, PaymentId(k), amount)) == -amount
    ensures Spent(PayRecords(ts, PaymentId(k), amount)) == amount
    ensures LogNamed(PayRecords(ts, PaymentId(k), amount), k)
  {
    var recs := PayRecords(ts, PaymentId(k), amount);
    PaymentIdIsPayment(k);
    IssuedNameOf(k, k);
    NotPaymentName("cashback");
    TotalPair(LiveAmount, recs[0], recs[1]);
    TotalPair(SpentAmount, recs[0], recs[1]);
  }

  /** A payment under the counter's number names nothing logged yet, and
      logging it keeps the bank sound for the counter after it. */
  lemma PaidSound(m: map<string, Acct>, k: nat, ts: int, id: string, amount: int)
    requires k >= 1 && BankSound(m, k - 1) && id in m
    ensures forall x | x in m :: !Mentions(m[x].transactions, PaymentId(k))
    ensures BankSound(m[id := Logged(m[id], -amount, PayRecords(ts, PaymentId(k), amount))], k)
  {
    forall x | x in m ensures !Mentions(m[x].transactions, PaymentId(k)) {
      assert AcctOk(m[x], k - 1);
      NextIsFresh(m[x].transactions, k - 1);
    }
    SoundLater(m, k - 1, k);
    PayRecordsOk(ts, k, amount);
    assert AcctOk(m[id], k);
    ExtendAcctOk(m[id], -amount, PayRecords(ts, PaymentId(k), amount), k);
  }

  /** After a merge `top_spenders` ranks the survivor with the outgoing
      money of both accounts and leaves the donor out; every other active
      account keeps its total. */
  lemma MergedSpending(m: map<string, Acct>, id1: string, id2: string, ts: int)
    requires id1 != id2 && id1 in m && id2 in m
    ensures var r := ActiveSpending(Merged(m, id1, id2, ts));
      && (forall id :: id in r <==> id in m && Active(m[id]) && id != id2)
      && (Active(m[id1]) && Active(m[id2]) ==> r[id1] == ActiveSpending(m)[id1] + ActiveSpending(m)[id2])
      && forall id | id in r && id != id1 :: r[id] == ActiveSpending(m)[id]
  {
    var copies := Tagged(m[id2].transactions, ts);
    TotalPointwise(SpentAmount, SpentAmount, copies, m[id2].transactions);
    TotalAppend(SpentAmount, m[id1].transactions, copies);
  }

  /** Merging keeps the invariant: the copies count as the originals do. */
  lemma MergedSound(m: map<string, Acct>, issued: int, id1: string, id2: string, ts: int)
    requires BankSound(m, issued) && id1 in m && id2 in m && id1 != id2
    ensures BankSound(Merged(m, id1, id2, ts), issued)
  {
    var a1, a2 := m[id1], m[id2];
    assert AcctOk(a1, issued) && AcctOk(a2, issued);
    var copies := Tagged(a2.transactions, ts);
    TotalPointwise(LiveAmount, LiveAmount, copies, a2.transactions);
    forall i | 0 <= i < |copies| ensures Named(copies[i], issued) {
      assert Named(a2.transactions[i], issued);
    }
    ExtendAcctOk(a1, a2.balance, copies, issued);
  }

  /** The survivor's history after a merge at `ts`: before the merge only
      its own records count; from the merge on, the donor's count as well,
      provided the donor's own merge tags are not later than `ts`. */
  lemma HistoryAfterMerge(log1: seq<Txn>, log2: seq<Txn>, ts: int, timeAt: int)
    ensures timeAt < ts ==> History(log1 + Tagged(log2, ts), timeAt) == History(log1, timeAt)
    ensures ts <= timeAt && (forall i | 0 <= i < |log2| :: log2[i].mergedAt.None? || log2[i].mergedAt.value <= ts) ==>
      History(log1 + Tagged(log2, ts), timeAt) == History(log1, timeAt) + History(log2, timeAt)
  {
    var f := AsOfAmount(timeAt);
    var copies := Tagged(log2, ts);
    TotalAppend(f, log1, copies);
    if timeAt < ts {
      forall i | 0 <= i < |copies| ensures f(copies[i]) == 0 {
        TagEffect(log2[i], ts, timeAt);
      }
      TotalZero(f, copies);
    } else if forall i | 0 <= i < |log2| :: log2[i].mergedAt.None? || log2[i].mergedAt.value <= ts {
      forall i | 0 <= i < |copies| ensures f(copies[i]) == f(log2[i]) {
        TagEffect(log2[i], ts, timeAt);
      }
      TotalPointwise(f, f, copies, log2);
    }
  }

  /** A record copied with merge tag `ts` counts nothing before `ts`, and
      from `ts` on counts as the original when the original's own tag is
      not later than `ts`. */
  lemma TagEffect(t: Txn, ts: int, timeAt: int)
    ensures timeAt < ts ==> AsOfAmount(timeAt)(t.(mergedAt := Some(ts))) == 0
    ensures ts <= timeAt && (t.mergedAt.None? || t.mergedAt.value <= ts) ==>
      AsOfAmount(timeAt)(t.(mergedAt := Some(ts))) == AsOfAmount(timeAt)(t)
  {
  }

  /** The balance rebuilt as of `now` is the running balance when every
      record but a pending cashback is at or before `now`, every cashback
      due by `now` has been deposited and none due later, and no merge tag
      is later than `now`. */
  lemma HistoryMatchesLive(log: seq<Txn>, now: int)
    requires forall i | 0 <= i < |log| :: log[i].timestamp <= now || log[i].operation == "cashback"
    requires forall i | 0 <= i < |log| :: log[i].operation == "cashback" ==> (log[i].deposited <==> log[i].timestamp <= now)
    requires forall i | 0 <= i < |log| :: log[i].mergedAt.None? || log[i].mergedAt.value <= now
    ensures History(log, now) == Live(log)
  {
    forall i | 0 <= i < |log| ensures AsOfAmount(now)(log[i]) == LiveAmount(log[i]) {
      NotPaymentName("cashback");
    }
    TotalPointwise(AsOfAmount(now), LiveAmount, log, log);
  }

  class BankingSystem {
    /** `self.accounts`. */
    var accounts: map<string, Acct>
    /** `self.payment_counter`: the number of the next payment. */
    var paymentCounter: nat

    ghost predicate Valid()
      reads this
    {
      paymentCounter >= 1 && BankSound(accounts, paymentCounter - 1)
    }

    constructor ()
      ensures Valid() && accounts == map[] && paymentCounter == 1
    {
      accounts := map[];
      paymentCounter := 1;
    }

    /** `_process_cashbacks`: every active account's due cashback is
        flagged and credited; merged accounts are skipped. Each account is
        drained on its own, so the dict's iteration order does not matter. */
    method ProcessCashbacks(ts: int)
      requires Valid()
      modifies this
      ensures Valid() && paymentCounter == old(paymentCounter)
      ensures accounts == DrainBank(old(accounts), ts)
    {
      ghost var start := accounts;
      var rest := accounts.Keys;
      while rest != {}
        invariant rest <= start.Keys && paymentCounter == old(paymentCounter)
        invariant accounts == DrainedBut(start, rest, ts)
        decreases rest
      {
        var id :| id in rest;
        var a := accounts[id];
        assert a == start[id];
        if a.mergedAt.None? {
          var balance, log := DrainRecords(a.balance, a.transactions, ts);
          a := a.(balance := balance, transactions := log);
        }
        assert a == DrainAcct(start[id], ts);
        DrainedStep(start, rest, id, ts);
        accounts := accounts[id := a];
        rest := rest - {id};
      }
      assert accounts == DrainBank(start, ts);
      DrainBankSound(start, paymentCounter - 1, ts);
    }

    /** `create_account` (no drain): fails only for an active account; a
        merged-away id is overwritten by a fresh account. */
    method CreateAccount(ts: int, id: string) returns (ok: bool)
      requires Valid()
      modifies this
      ensures Valid() && paymentCounter == old(paymentCounter)
      ensures ok <==> id !in old(accounts) || !Active(old(accounts)[id])
      ensures ok ==> accounts == old(accounts)[id := Acct(0, [], ts, None)]
      ensures !ok ==> accounts == old(accounts)
    {
      if id in accounts {
        if accounts[id].mergedAt.None? {
          return false;
        }
      }
      accounts := accounts[id := Acct(0, [], ts, None)];
      return true;
    }

    /** Logs records whose payment names were issued and changes the
        balance by their effect. */
    method Record(id: string, delta: int, recs: seq<Txn>)
      requires Valid() && id in accounts
      requires Live(recs) == delta && LogNamed(recs, paymentCounter - 1)
      modifies this
      ensures Valid() && paymentCounter == old(paymentCounter)
      ensures accounts == old(accounts)[id := Logged(old(accounts)[id], delta, recs)]
    {
      assert AcctOk(accounts[id], paymentCounter - 1);
      ExtendAcctOk(accounts[id], delta, recs, paymentCounter - 1);
      accounts := accounts[id := Logged(accounts[id], delta, recs)];
    }

    /** `deposit` after its drain: credits an active account. */
    method ApplyDeposit(ts: int, id: string, amount: int) returns (r: Option<int>)
      requires Valid()
      modifies this
      ensures Valid() && paymentCounter == old(paymentCounter)
      ensures r.None? <==> id !in old(accounts) || !Active(old(accounts)[id])
      ensures r.None? ==> accounts == old(accounts)
      ensures r.Some? ==>
        && r == Some(old(accounts)[id].balance + amount)
        && accounts == old(accounts)[id := Logged(old(accounts)[id], amount, [Plain(ts, "deposit", amount)])]
    {
      if id !in accounts {
        return None;
      }
      if accounts[id].mergedAt.Some? {
        return None;
      }
      OrdinaryRecord(Plain(ts, "deposit", amount), paymentCounter - 1);
      Record(id, amount, [Plain(ts, "deposit", amount)]);
      r := Some(accounts[id].balance);
    }

    /** `deposit`: drains, then credits an active account. */
    method Deposit(ts: int, id: string, amount: int) returns (r: Option<int>)
      requires Valid()
      modifies this
      ensures Valid() && paymentCounter == old(paymentCounter)
      ensures var d := DrainBank(old(accounts), ts);
        && (r.None? <==> id !in d || !Active(d[id]))
        && (r.None? ==> accounts == d)
        && (r.Some? ==> r == Some(d[id].balance + amount) &&
                        accounts == d[id := Logged(d[id], amount, [Plain(ts, "deposit", amount)])])
    {
      ProcessCashbacks(ts);
      r := ApplyDeposit(ts, id, amount);
    }

    /** `transfer` after its drain: moves `amount` between two distinct
        active accounts when the source can cover it. */
    method ApplyTransfer(ts: int, source: string, target: string, amount: int) returns (r: Option<int>)
      requires Valid()
      modifies this
      ensures Valid() && paymentCounter == old(paymentCounter)
      ensures r.None? <==> source !in old(accounts) || target !in old(accounts) || source == target ||
                           !Active(old(accounts)[source]) || !Active(old(accounts)[target]) ||
                           old(accounts)[source].balance < amount
      ensures r.None? ==> accounts == old(accounts)
      ensures r.Some? ==>
        && r == Some(old(accounts)[source].balance - amount)
        && accounts == Moved(old(accounts), ts, source, target, amount)
    {
      if source !in accounts || target !in accounts || source == target {
        return None;
      }
      if accounts[source].mergedAt.Some? || accounts[target].mergedAt.Some? {
        return None;
      }
      if accounts[source].balance < amount {
        return None;
      }
      MovedSound(accounts, ts, source, target, amount, paymentCounter - 1);
      r := Some(accounts[source].balance - amount);
      accounts := Moved(accounts, ts, source, target, amount);
    }

    /** `transfer`: drains, then moves the money. */
    method Transfer(ts: int, source: string, target: string, amount: int) returns (r: Option<int>)
      requires Valid()
      modifies this
      ensures Valid() && paymentCounter == old(paymentCounter)
      ensures var d := DrainBank(old(accounts), ts);
        && (r.None? <==> source !in d || target !in d || source == target ||
                         !Active(d[source]) || !Active(d[target]) || d[source].balance < amount)
        && (r.None? ==> accounts == d)
        && (r.Some? ==>
          && r == Some(d[source].balance - amount)
          && accounts == Moved(d, ts, source, target, amount))
    {
      ProcessCashbacks(ts);
      r := ApplyTransfer(ts, source, target, amount);
    }

    /** The accumulation loop of `top_spenders`: the outgoing total of
        every active account. */
    method SpendingTotals() returns (totals: map<string, int>)
      ensures totals == ActiveSpending(accounts)
    {
      totals := map[];
      var rest := accounts.Keys;
      while rest != {}
        invariant rest <= accounts.Keys
        invariant totals == map id | id in accounts && id !in rest && Active(accounts[id]) :: Spent(accounts[id].transactions)
        decreases rest
      {
        var id :| id in rest;
        var info := accounts[id];
        if info.mergedAt.None? {
          var total := SpentBy(info.transactions);
          totals := totals[id := total];
        }
        rest := rest - {id};
      }
    }

    /** The inner loop of `top_spenders`: "transfer_out" and payment
        records add up. */
    static method SpentBy(log: seq<Txn>) returns (total: int)
      ensures total == Spent(log)
    {
      total := 0;
      var j := 0;
      while j < |log|
        invariant 0 <= j <= |log|
        invariant total == Spent(log[..j])
      {
        assert log[..j + 1] == log[..j] + [log[j]];
        TotalAppend(SpentAmount, log[..j], [log[j]]);
        TotalSingle(SpentAmount, log[j]);
        if log[j].operation == "transfer_out" || StartsWith(log[j].operation, "payment") {
          total := total + log[j].amount;
        }
        j := j + 1;
      }
      assert log[..j] == log;
    }

    /** `top_spenders`: drains, then the first `min(n, count)` active
        accounts by descending outgoing total, ties by ascending id (none
        for a negative `n`). */
    method TopSpenders(ts: int, n: int) returns (r: seq<Ranking.Spender>)
      requires Valid()
      modifies this
      ensures Valid() && paymentCounter == old(paymentCounter)
      ensures accounts == DrainBank(old(accounts), ts)
      ensures Ranking.IsTopOf(r, ActiveSpending(accounts))
      ensures |r| == Max(0, Min(n, |ActiveSpending(accounts)|))
    {
      ProcessCashbacks(ts);
      var totals := SpendingTotals();
      var ranked := Ranking.RankAll(totals);
      r := Ranking.CollectFirst(ranked, n);
      Ranking.FirstNLength(ranked, n);
      Ranking.PrefixIsTop(ranked, totals, |r|);
    }

    /** `pay` after its drain: withdraws from an active account that can
        cover `amount`, names the payment after the counter and logs it
        with its undeposited 2% cashback due one day later. */
    method ApplyPay(ts: int, id: string, amount: int) returns (r: Option<string>)
      requires Valid()
      modifies this
      ensures Valid()
      ensures r.None? <==> id !in old(accounts) || !Active(old(accounts)[id]) || old(accounts)[id].balance < amount
      ensures r.None? ==> accounts == old(accounts) && paymentCounter == old(paymentCounter)
      ensures r.Some? ==>
        && r == Some(PaymentId(old(paymentCounter)))
        && paymentCounter == old(paymentCounter) + 1
        && (forall x | x in old(accounts) :: !Mentions(old(accounts)[x].transactions, r.value))
        && accounts == old(accounts)[id := Logged(old(accounts)[id], -amount, PayRecords(ts, r.value, amount))]
    {
      if id !in accounts {
        return None;
      }
      if accounts[id].mergedAt.Some? || accounts[id].balance < amount {
        return None;
      }
      PaidSound(accounts, paymentCounter, ts, id, amount);
      var pid := PaymentId(paymentCounter);
      accounts, paymentCounter :=
        accounts[id := Logged(accounts[id], -amount, PayRecords(ts, pid, amount))], paymentCounter + 1;
      r := Some(pid);
    }

    /** `pay`: drains, then pays. */
    method Pay(ts: int, id: string, amount: int) returns (r: Option<string>)
      requires Valid()
      modifies this
      ensures Valid()
      ensures var d := DrainBank(old(accounts), ts);
        && (r.None? <==> id !in d || !Active(d[id]) || d[id].balance < amount)
        && (r.None? ==> accounts == d && paymentCounter == old(paymentCounter))
        && (r.Some? ==>
          && r == Some(PaymentId(old(paymentCounter)))
          && paymentCounter == old(paymentCounter) + 1
          && (forall x | x in d :: !Mentions(d[x].transactions, r.value))
          && accounts == d[id := Logged(d[id], -amount, PayRecords(ts, r.value, amount))])
    {
      ProcessCashbacks(ts);
      r := ApplyPay(ts, id, amount);
    }

    /** The single pass of `get_payment_status` that gathers both flags. */
    static method StatusScan(log: seq<Txn>, payment: string) returns (r: Option<PaymentStatus>)
      ensures r == StatusOf(log, payment)
    {
      var paymentFound := false;
      var cashbackDeposited := false;
      var i := 0;
      while i < |log|
        invariant 0 <= i <= |log|
        invariant paymentFound <==> HasOperation(log[..i], payment)
        invariant cashbackDeposited <==> CashbackDeposited(log[..i], payment)
      {
        assert forall k | 0 <= k < i :: log[..i + 1][k] == log[..i][k];
        assert log[..i + 1][i] == log[i];
        if log[i].operation == payment {
          paymentFound := true;
        }
        if log[i].operation == "cashback" && log[i].payment == Some(payment) && log[i].deposited {
          cashbackDeposited := true;
        }
        i := i + 1;
      }
      assert log[..i] == log;
      if !paymentFound {
        return None;
      }
      return if cashbackDeposited then Some(CashbackReceived) else Some(InProgress);
    }

    /** `get_payment_status`: drains, then reads an active account's log. */
    method GetPaymentStatus(ts: int, id: string, payment: string) returns (r: Option<PaymentStatus>)
      requires Valid()
      modifies this
      ensures Valid() && paymentCounter == old(paymentCounter)
      ensures accounts == DrainBank(old(accounts), ts)
      ensures r == if id in accounts && Active(accounts[id]) then StatusOf(accounts[id].transactions, payment) else None
    {
      ProcessCashbacks(ts);
      if id !in accounts {
        return None;
      }
      if accounts[id].mergedAt.Some? {
        return None;
      }
      r := StatusScan(accounts[id].transactions, payment);
    }

    /** `merge_accounts` after its drain: fails for equal ids, an unknown
        id or a merged account; otherwise the survivor gains the donor's
        balance and tagged copies of its records, and the donor is marked
        merged. */
    method ApplyMerge(ts: int, id1: string, id2: string) returns (ok: bool)
      requires Valid()
      modifies this
      ensures Valid() && paymentCounter == old(paymentCounter)
      ensures ok <==> id1 != id2 && id1 in old(accounts) && id2 in old(accounts) &&
                      Active(old(accounts)[id1]) && Active(old(accounts)[id2])
      ensures !ok ==> accounts == old(accounts)
      ensures ok ==> accounts == Merged(old(accounts), id1, id2, ts)
    {
      if id1 == id2 {
        return false;
      }
      if id1 !in accounts || id2 !in accounts {
        return false;
      }
      if accounts[id1].mergedAt.Some? || accounts[id2].mergedAt.Some? {
        return false;
      }
      MergedSound(accounts, paymentCounter - 1, id1, id2, ts);
      var acc2 := accounts[id2];
      var copies := TagCopies(acc2.transactions, ts);
      accounts := accounts[id1 := Logged(accounts[id1], acc2.balance, copies)];
      accounts := accounts[id2 := acc2.(mergedAt := Some(ts))];
      return true;
    }

    /** `merge_accounts`: drains, then merges. */
    method MergeAccounts(ts: int, id1: string, id2: string) returns (ok: bool)
      requires Valid()
      modifies this
      ensures Valid() && paymentCounter == old(paymentCounter)
      ensures var d := DrainBank(old(accounts), ts);
        && (ok <==> id1 != id2 && id1 in d && id2 in d && Active(d[id1]) && Active(d[id2]))
        && (!ok ==> accounts == d)
        && (ok ==> accounts == Merged(d, id1, id2, ts))
    {
      ProcessCashbacks(ts);
      ok := ApplyMerge(ts, id1, id2);
    }

    /** The fold of `get_balance` over a log. */
    static method Replay(log: seq<Txn>, timeAt: int) returns (balance: int)
      ensures balance == History(log, timeAt)
    {
      balance := 0;
      var i := 0;
      while i < |log|
        invariant 0 <= i <= |log|
        invariant balance == History(log[..i], timeAt)
      {
        assert log[..i + 1] == log[..i] + [log[i]];
        TotalAppend(AsOfAmount(timeAt), log[..i], [log[i]]);
        TotalSingle(AsOfAmount(timeAt), log[i]);
        var t := log[i];
        if t.timestamp <= timeAt && !(t.mergedAt.Some? && t.mergedAt.value > timeAt) {
          var op := t.operation;
          if op == "deposit" {
            balance := balance + t.amount;
          } else if op == "transfer_in" {
            balance := balance + t.amount;
          } else if op == "transfer_out" {
            balance := balance - t.amount;
          } else if StartsWith(op, "payment") {
            balance := balance - t.amount;
          } else if op == "cashback" {
            balance := balance + t.amount;
          }
        }
        i := i + 1;
      }
      assert log[..i] == log;
    }

    /** `get_balance`: drains, then None for an unknown account, a time
        before its creation or a time from its merge on; otherwise its log
        replayed up to `timeAt`. */
    method GetBalance(ts: int, id: string, timeAt: int) returns (r: Option<int>)
      requires Valid()
      modifies this
      ensures Valid() && paymentCounter == old(paymentCounter)
      ensures accounts == DrainBank(old(accounts), ts)
      ensures r == if id in accounts then BalanceQuery(accounts[id], timeAt) else None
    {
      ProcessCashbacks(ts);
      if id !in accounts {
        return None;
      }
      var acc := accounts[id];
      if acc.creationTime > timeAt {
        return None;
      }
      if acc.mergedAt.Some? {
        if timeAt >= acc.mergedAt.value {
          return None;
        }
      }
      var balance := Replay(acc.transactions, timeAt);
      return Some(balance);
    }
  }
}
