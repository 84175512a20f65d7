// Yejin/banking_system_impl.py: accounts keep a transaction log; pay appends
// a payment record and an undeposited cashback record that the drain flags
// in place; merge moves the donor's log into the survivor and deletes the
// donor; get_balance replays the log without draining.

module Yejin {
  import opened Common
  import opened LogLedger
  import Ranking

  /** Timestamps of the "created account" records, in log order. */
  function CreatedTimes(log: seq<Txn>): (r: seq<int>)
    ensures forall x :: x in r <==> exists i | 0 <= i < |log| :: log[i].operation == "created account" && log[i].timestamp == x
  {
    if log == [] then []
    else
      var init := CreatedTimes(log[..|log| - 1]);
      assert forall i | 0 <= i < |log| - 1 :: log[..|log| - 1][i] == log[i];
      if log[|log| - 1].operation == "created account" then init + [log[|log| - 1].timestamp] else init
  }

  lemma {:induction false} CreatedTimesAppend(a: seq<Txn>, b: seq<Txn>)
    ensures CreatedTimes(a + b) == CreatedTimes(a) + CreatedTimes(b)
  {
    if b == [] {
      assert a + b == a;
    } else {
      assert (a + b)[..|a + b| - 1] == a + b[..|b| - 1];
      CreatedTimesAppend(a, b[..|b| - 1]);
    }
  }

  /** Python's `min` of a non-empty list. */
  function SeqMin(s: seq<int>): (m: int)
    requires s != []
    ensures m in s
    ensures forall x | x in s :: m <= x
  {
    if |s| == 1 then s[0]
    else
      var rest := SeqMin(s[1..]);
      assert s == [s[0]] + s[1..];
      if s[0] <= rest then s[0] else rest
  }

  /** What `get_balance` answers for an account with this log: None when
      the log has no "created account" record or `timeAt` precedes the
      earliest one; otherwise the replayed balance. */
  function BalanceQuery(log: seq<Txn>, timeAt: int): Option<int>
  {
    var created := CreatedTimes(log);
    if created == [] || timeAt < SeqMin(created) then None
    else Some(HistoricBalance(log, timeAt))
  }

  /** A past balance only depends on the records up to that time: records
      appended later with later timestamps do not change it. */
  lemma {:induction false} HistoryIsStable(log: seq<Txn>, later: seq<Txn>, timeAt: int)
    requires forall i | 0 <= i < |later| :: later[i].timestamp > timeAt
    ensures HistoricBalance(log + later, timeAt) == HistoricBalance(log, timeAt)
  {
    TotalAppend(HistoricAmount(timeAt), log, later);
    TotalZero(HistoricAmount(timeAt), later);
  }

  /** After a merge the survivor's history is the sum of both histories at
      every time, even before the merge: Yejin keeps no merge tag. */
  lemma MergedHistory(log1: seq<Txn>, log2: seq<Txn>, timeAt: int)
    ensures HistoricBalance(log1 + log2, timeAt) == HistoricBalance(log1, timeAt) + HistoricBalance(log2, timeAt)
  {
    TotalAppend(HistoricAmount(timeAt), log1, log2);
  }

  /** Some entry of `s` is at most `t`. */
  predicate AnyAtMost(s: seq<int>, t: int)
  {
    exists i | 0 <= i < |s| :: s[i] <= t
  }

  /** `min` of a list is at most `t` exactly when some entry is. */
  lemma MinAtMost(s: seq<int>, t: int)
    requires s != []
    ensures SeqMin(s) <= t <==> AnyAtMost(s, t)
  {
    if SeqMin(s) <= t {
      var i :| 0 <= i < |s| && s[i] == SeqMin(s);
    }
  }

  lemma AnyAtMostAppend(a: seq<int>, b: seq<int>, t: int)
    ensures AnyAtMost(a + b, t) <==> AnyAtMost(a, t) || AnyAtMost(b, t)
  {
    if AnyAtMost(a + b, t) {
      var i :| 0 <= i < |a + b| && (a + b)[i] <= t;
      if i < |a| { assert a[i] == (a + b)[i]; } else { assert b[i - |a|] == (a + b)[i]; }
    }
    if AnyAtMost(a, t) {
      var i :| 0 <= i < |a| && a[i] <= t;
      assert (a + b)[i] == a[i];
    }
    if AnyAtMost(b, t) {
      var i :| 0 <= i < |b| && b[i] <= t;
      assert (a + b)[|a| + i] == b[i];
    }
  }

  /** `get_balance` answers for a log exactly when one of its creation
      records is not later than `timeAt`. */
  lemma AnswersWhenCreated(log: seq<Txn>, timeAt: int)
    ensures BalanceQuery(log, timeAt).Some? <==> AnyAtMost(CreatedTimes(log), timeAt)
  {
    if CreatedTimes(log) != [] { MinAtMost(CreatedTimes(log), timeAt); }
  }

  /** `get_balance` on the survivor of a merge: it answers exactly when it
      would have answered for one of the two accounts, and then with the
      sum of both histories, since `extend` keeps both creation records. */
  lemma MergedQuery(log1: seq<Txn>, log2: seq<Txn>, timeAt: int)
    ensures BalanceQuery(log1 + log2, timeAt).Some? <==>
      BalanceQuery(log1, timeAt).Some? || BalanceQuery(log2, timeAt).Some?
    ensures BalanceQuery(log1 + log2, timeAt).Some? ==>
      BalanceQuery(log1 + log2, timeAt) == Some(HistoricBalance(log1, timeAt) + HistoricBalance(log2, timeAt))
  {
    CreatedTimesAppend(log1, log2);
    AnyAtMostAppend(CreatedTimes(log1), CreatedTimes(log2), timeAt);
    AnswersWhenCreated(log1 + log2, timeAt);
    AnswersWhenCreated(log1, timeAt);
    AnswersWhenCreated(log2, timeAt);
    MergedHistory(log1, log2, timeAt);
  }

  /** The record on the sending side: it takes `amount` off the balance. */
  lemma OutRecord(ts: int, amount: int, issued: int)
    ensures LiveBalance([Plain(ts, "transferred out", amount)]) == -amount
    ensures PaymentRecords([Plain(ts, "transferred out", amount)]) == 0
    ensures LogNamed([Plain(ts, "transferred out", amount)], issued)
  {
    PlainRecord(ts, "transferred out", amount, issued);
  }

  /** The record on the receiving side: it adds `amount` to the balance. */
  lemma InRecord(ts: int, amount: int, issued: int)
    ensures LiveBalance([Plain(ts, "transferred in", amount)]) == amount
    ensures PaymentRecords([Plain(ts, "transferred in", amount)]) == 0
    ensures LogNamed([Plain(ts, "transferred in", amount)], issued)
  {
    PlainRecord(ts, "transferred in", amount, issued);
  }

  /** Draining the accounts one by one in key order drains them all. */
  lemma DrainedInOrder(ids: seq<string>, start: map<string, Account>, m: map<string, Account>, ts: int)
    requires Keyed(ids, start) && m.Keys == start.Keys
    requires forall k | 0 <= k < |ids| :: m[ids[k]] == DrainAccount(start[ids[k]], ts)
    ensures m == DrainAll(start, ts)
  {
    forall id | id in m ensures m[id] == DrainAll(start, ts)[id] {
      var k :| 0 <= k < |ids| && ids[k] == id;
    }
  }

  class Bank {
    /** The keys of `whole_accounts`, in insertion order. */
    var ids: seq<string>
    /** `whole_accounts`. */
    var accounts: map<string, Account>
    /** Number of successful payments so far. */
    ghost var issued: nat

    /** Keys in order, every balance is its log's account, and the payment
        records across all accounts are exactly the payments issued. */
    ghost predicate Valid()
      reads this
    {
      Sound(ids, accounts, issued)
    }

    constructor ()
      ensures Valid() && ids == [] && accounts == map[] && issued == 0
    {
      ids := [];
      accounts := map[];
      issued := 0;
    }

    /** `_process_cashbacks`: flags and credits every due cashback record. */
    method ProcessCashbacks(ts: int)
      requires Valid()
      modifies this
      ensures Valid()
      ensures ids == old(ids) && issued == old(issued)
      ensures accounts == DrainAll(old(accounts), ts)
    {
      ghost var start := accounts;
      assert Keyed(ids, start);
      var i := 0;
      while i < |ids|
        invariant 0 <= i <= |ids|
        invariant ids == old(ids) && issued == old(issued) && accounts.Keys == start.Keys
        invariant forall k | 0 <= k < i :: accounts[ids[k]] == DrainAccount(start[ids[k]], ts)
        invariant forall k | i <= k < |ids| :: accounts[ids[k]] == start[ids[k]]
      {
        var balance, log := DrainRecords(accounts[ids[i]].balance, accounts[ids[i]].transactions, ts);
        accounts := accounts[ids[i] := Account(balance, log)];
        i := i + 1;
      }
      DrainedInOrder(ids, start, accounts, ts);
      DrainAllSound(ids, start, issued, ts);
    }

    /** `create_account` (no drain): fails iff the id exists. */
    method CreateAccount(ts: int, id: string) returns (ok: bool)
      requires Valid()
      modifies this
      ensures Valid() && issued == old(issued)
      ensures ok <==> id !in old(accounts)
      ensures ok ==> ids == old(ids) + [id]
      ensures ok ==> accounts == old(accounts)[id := Account(0, [Plain(ts, "created account", 0)])]
      ensures !ok ==> ids == old(ids) && accounts == old(accounts)
    {
      if id in accounts {
        return false;
      }
      CreateSound(ids, accounts, issued, id, ts);
      accounts := accounts[id := Account(0, [Plain(ts, "created account", 0)])];
      ids := ids + [id];
      return true;
    }

    /** Logs records that carry no payment and changes the balance by
        their effect: the in-place `append` and `+=` of the operations. */
    method Record(id: string, delta: int, recs: seq<Txn>)
      requires Valid() && id in accounts
      requires LiveBalance(recs) == delta && PaymentRecords(recs) == 0 && LogNamed(recs, issued)
      modifies this
      ensures Valid() && ids == old(ids) && issued == old(issued)
      ensures accounts == old(accounts)[id := Extend(old(accounts)[id], delta, recs)]
    {
      ExtendSound(ids, accounts, issued, id, delta, recs);
      accounts := accounts[id := Extend(accounts[id], delta, recs)];
    }

    /** `deposit` after its drain: credits an existing account and logs it. */
    method ApplyDeposit(ts: int, id: string, amount: int) returns (r: Option<int>)
      requires Valid()
      modifies this
      ensures Valid() && ids == old(ids) && issued == old(issued)
      ensures r.None? <==> id !in old(accounts)
      ensures r.None? ==> accounts == old(accounts)
      ensures r.Some? ==>
        && r == Some(old(accounts)[id].balance + amount)
        && accounts == old(accounts)[id := Extend(old(accounts)[id], amount, [Plain(ts, "deposited", amount)])]
    {
      if id !in accounts {
        return None;
      }
      PlainRecord(ts, "deposited", amount, issued);
      Record(id, amount, [Plain(ts, "deposited", amount)]);
      r := Some(accounts[id].balance);
    }

    /** `deposit`: drains, then credits an existing account and logs it. */
    method Deposit(ts: int, id: string, amount: int) returns (r: Option<int>)
      requires Valid()
      modifies this
      ensures Valid() && ids == old(ids) && issued == old(issued)
      ensures var d := DrainAll(old(accounts), ts);
        && (r.None? <==> id !in d)
        && (r.None? ==> accounts == d)
        && (r.Some? ==> r == Some(d[id].balance + amount) &&
                        accounts == d[id := Extend(d[id], amount, [Plain(ts, "deposited", amount)])])
    {
      ProcessCashbacks(ts);
      r := ApplyDeposit(ts, id, amount);
    }

    /** `transfer` after its drain: moves `amount` between two distinct
        existing accounts when the source can cover it. */
    method ApplyTransfer(ts: int, source: string, target: string, amount: int) returns (r: Option<int>)
      requires Valid()
      modifies this
      ensures Valid() && ids == old(ids) && issued == old(issued)
      ensures r.None? <==> source !in old(accounts) || target !in old(accounts) || source == target ||
                           old(accounts)[source].balance < amount
      ensures r.None? ==> accounts == old(accounts)
      ensures r.Some? ==>
        && r == Some(old(accounts)[source].balance - amount)
        && accounts == Transferred(old(accounts), ts, source, target, amount)
    {
      if source !in accounts || target !in accounts || source == target {
        return None;
      }
      if accounts[source].balance < amount {
        return None;
      }
      OutRecord(ts, amount, issued);
      Record(source, -amount, [Plain(ts, "transferred out", amount)]);
      r := Some(accounts[source].balance);
      InRecord(ts, amount, issued);
      Record(target, amount, [Plain(ts, "transferred in", amount)]);
    }

    /** `transfer`: drains, then moves `amount` between two distinct
        existing accounts when the source can cover it. */
    method Transfer(ts: int, source: string, target: string, amount: int) returns (r: Option<int>)
      requires Valid()
      modifies this
      ensures Valid() && ids == old(ids) && issued == old(issued)
      ensures var d := DrainAll(old(accounts), ts);
        && (r.None? <==> source !in d || target !in d || source == target || d[source].balance < amount)
        && (r.None? ==> accounts == d)
        && (r.Some? ==> r == Some(d[source].balance - amount) && accounts == Transferred(d, ts, source, target, amount))
    {
      ProcessCashbacks(ts);
      r := ApplyTransfer(ts, source, target, amount);
    }

    /** `top_spenders`' accumulation loop: each account's outgoing total. */
    method SpendingTotals() returns (totals: map<string, int>)
      requires Keyed(ids, accounts)
      ensures totals == Spending(accounts)
    {
      totals := map[];
      var i := 0;
      while i < |ids|
        invariant 0 <= i <= |ids|
        invariant totals == map id | id in ids[..i] :: Outgoing(accounts[id].transactions)
      {
        var log := accounts[ids[i]].transactions;
        var sum := 0;
        var j := 0;
        while j < |log|
          invariant 0 <= j <= |log|
          invariant sum == Outgoing(log[..j])
        {
          assert log[..j + 1] == log[..j] + [log[j]];
          TotalAppend(OutgoingAmount, log[..j], [log[j]]);
          TotalSingle(OutgoingAmount, log[j]);
          if log[j].operation == "transferred out" || StartsWith(log[j].operation, "payment") {
            sum := sum + log[j].amount;
          }
          j := j + 1;
        }
        assert log[..j] == log;
        totals := totals[ids[i] := sum];
        assert ids[..i + 1] == ids[..i] + [ids[i]];
        i := i + 1;
      }
      assert ids[..i] == ids;
    }

    /** `top_spenders`: drains, then lists the `n` biggest spenders,
        Python's `[:n]` slice included. */
    method TopSpenders(ts: int, n: int) returns (r: seq<Ranking.Spender>)
      requires Valid()
      modifies this
      ensures Valid() && ids == old(ids) && issued == old(issued)
      ensures accounts == DrainAll(old(accounts), ts)
      ensures Ranking.IsTopOf(r, Spending(accounts))
      ensures |r| == if n >= 0 then Min(n, |accounts|) else Max(0, |accounts| + n)
    {
      ProcessCashbacks(ts);
      var totals := SpendingTotals();
      var ranked := Ranking.RankAll(totals);
      r := Ranking.PySlicePrefix(ranked, n);
      Ranking.PySliceLength(ranked, n);
      Ranking.PrefixIsTop(ranked, totals, |r|);
      assert totals.Keys == accounts.Keys;
    }

    /** The nested counting loop of `pay`: 1 + payment records everywhere. */
    method NextPaymentOrdinal() returns (count: int)
      requires Keyed(ids, accounts)
      ensures count == 1 + PaymentsIn(ids, accounts)
    {
      count := 1;
      var i := 0;
      while i < |ids|
        invariant 0 <= i <= |ids|
        invariant count == 1 + PaymentsIn(ids[..i], accounts)
      {
        var log := accounts[ids[i]].transactions;
        var j := 0;
        var here := 0;
        while j < |log|
          invariant 0 <= j <= |log|
          invariant here == PaymentRecords(log[..j])
        {
          assert log[..j + 1] == log[..j] + [log[j]];
          TotalAppend(PaymentFlag, log[..j], [log[j]]);
          TotalSingle(PaymentFlag, log[j]);
          if StartsWith(log[j].operation, "payment") {
            here := here + 1;
          }
          j := j + 1;
        }
        assert log[..j] == log;
        assert ids[..i + 1] == ids[..i] + [ids[i]];
        PaymentsInSnoc(ids[..i], ids[i], accounts);
        count := count + here;
        i := i + 1;
      }
      assert ids[..i] == ids;
    }

    /** `pay` after its drain: withdraws `amount` and logs the payment
        under the next global ordinal together with an undeposited 2%
        cashback due one day later. */
    method ApplyPay(ts: int, id: string, amount: int) returns (r: Option<string>)
      requires Valid()
      modifies this
      ensures Valid() && ids == old(ids)
      ensures r.None? <==> id !in old(accounts) || old(accounts)[id].balance < amount
      ensures r.None? ==> accounts == old(accounts) && issued == old(issued)
      ensures r.Some? ==>
        && issued == old(issued) + 1
        && r == Some(PaymentId(issued))
        && (forall x | x in old(accounts) :: !Mentions(old(accounts)[x].transactions, r.value))
        && accounts == old(accounts)[id := Extend(old(accounts)[id], -amount, PayRecords(ts, r.value, amount))]
    {
      if id !in accounts || accounts[id].balance < amount {
        return None;
      }
      var d := accounts;
      var info := accounts[id];
      accounts := accounts[id := info.(balance := info.balance - amount)];
      var count := NextPaymentOrdinal();
      assert count == issued + 1 by {
        PaymentsInUpdate(ids, d, id, info.(balance := info.balance - amount));
      }
      var pid := PaymentId(count);
      PaySound(ids, d, issued, id, ts, amount);
      r := Some(pid);
      issued := issued + 1;
      accounts := d[id := Extend(info, -amount, PayRecords(ts, pid, amount))];
    }

    /** `pay`: drains, then pays. The identifier is `"payment"` followed by
        one more than the number of payments made so far. */
    method Pay(ts: int, id: string, amount: int) returns (r: Option<string>)
      requires Valid()
      modifies this
      ensures Valid() && ids == old(ids)
      ensures var d := DrainAll(old(accounts), ts);
        && (r.None? <==> id !in d || d[id].balance < amount)
        && (r.None? ==> accounts == d && issued == old(issued))
        && (r.Some? ==>
          && issued == old(issued) + 1
          && r == Some(PaymentId(issued))
          && (forall x | x in d :: !Mentions(d[x].transactions, r.value))
          && accounts == d[id := Extend(d[id], -amount, PayRecords(ts, r.value, amount))])
    {
      ProcessCashbacks(ts);
      r := ApplyPay(ts, id, amount);
    }

    /** The lookup of `get_payment_status` after its drain. */
    method PaymentStatusOf(id: string, payment: string) returns (r: Option<PaymentStatus>)
      ensures r == if id in accounts then StatusInLog(accounts[id].transactions, payment) else None
    {
      if id !in accounts {
        return None;
      }
      var log := accounts[id].transactions;
      var found := false;
      var i := 0;
      while i < |log|
        invariant 0 <= i <= |log|
        invariant !found ==> forall k | 0 <= k < i :: log[k].operation != payment
        invariant found ==> HasOperation(log, payment)
      {
        if log[i].operation == payment {
          found := true;
          break;
        }
        i := i + 1;
      }
      if !found {
        return None;
      }
      i := 0;
      while i < |log|
        invariant 0 <= i <= |log|
        invariant forall k | 0 <= k < i :: !(log[k].operation == "cashback" && log[k].payment == Some(payment))
      {
        if log[i].operation == "cashback" && log[i].payment == Some(payment) {
          return Some(if log[i].deposited then CashbackReceived else InProgress);
        }
        i := i + 1;
      }
      return None;
    }

    /** `get_payment_status`: drains, then reads the account's log. */
    method GetPaymentStatus(ts: int, id: string, payment: string) returns (r: Option<PaymentStatus>)
      requires Valid()
      modifies this
      ensures Valid() && ids == old(ids) && issued == old(issued)
      ensures accounts == DrainAll(old(accounts), ts)
      ensures r == if id in accounts then StatusInLog(accounts[id].transactions, payment) else None
    {
      ProcessCashbacks(ts);
      r := PaymentStatusOf(id, payment);
    }

    /** `merge_accounts`: drains, then moves `id2`'s balance and records
        into `id1` and deletes `id2`. */
    method MergeAccounts(ts: int, id1: string, id2: string) returns (ok: bool)
      requires Valid()
      modifies this
      ensures Valid() && issued == old(issued)
      ensures var d := DrainAll(old(accounts), ts);
        && (ok <==> id1 != id2 && id1 in d && id2 in d)
        && (!ok ==> accounts == d && ids == old(ids))
        && (ok ==> accounts == d[id1 := Absorb(d[id1], d[id2])] - {id2} && ids == Remove(old(ids), id2))
    {
      ProcessCashbacks(ts);
      if id1 == id2 {
        return false;
      }
      if id1 !in accounts || id2 !in accounts {
        return false;
      }
      MergeSound(ids, accounts, issued, id1, id2);
      accounts := accounts[id1 := Absorb(accounts[id1], accounts[id2])] - {id2};
      ids := Remove(ids, id2);
      return true;
    }

    /** `get_balance` (no drain): replays the account's log up to `timeAt`. */
    method GetBalance(ts: int, id: string, timeAt: int) returns (r: Option<int>)
      ensures r == if id in accounts then BalanceQuery(accounts[id].transactions, timeAt) else None
    {
      if id !in accounts {
        return None;
      }
      var log := accounts[id].transactions;
      if log == [] {
        return None;
      }
      var created: seq<int> := [];
      var i := 0;
      while i < |log|
        invariant 0 <= i <= |log|
        invariant created == CreatedTimes(log[..i])
      {
        assert log[..i + 1][..i] == log[..i];
        if log[i].operation == "created account" {
          created := created + [log[i].timestamp];
        }
        i := i + 1;
      }
      assert log[..i] == log;
      if created == [] {
        return None;
      }
      if timeAt < SeqMin(created) {
        return None;
      }
      var balance := 0;
      i := 0;
      while i < |log|
        invariant 0 <= i <= |log|
        invariant balance == HistoricBalance(log[..i], timeAt)
      {
        assert log[..i + 1] == log[..i] + [log[i]];
        TotalAppend(HistoricAmount(timeAt), log[..i], [log[i]]);
        TotalSingle(HistoricAmount(timeAt), log[i]);
        var t := log[i];
        if t.timestamp <= timeAt {
          if t.operation in {"deposited", "transferred in", "cashback"} {
            balance := balance + t.amount;
          } else if t.operation == "transferred out" || StartsWith(t.operation, "payment") {
            balance := balance - t.amount;
          }
        }
        i := i + 1;
      }
      assert log[..i] == log;
      return Some(balance);
    }
  }
}
