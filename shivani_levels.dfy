// Shivani/banking_system_impl_1-3.py: levels 1 to 3 with the balances and
// the outgoing totals in two maps, a payment table, and a cashback schedule
// keyed by due time that is drained past `_last_processed_ts`.

module ShivaniLevels {
  import opened Common
  import Ranking

  /** An entry of `_payments`. */
  datatype Payment = Payment(account: string, amount: int, cashback: int, cashbackTs: int, status: PaymentStatus)

  /** `_balances` and `_payments`: the part of the state a drain changes
      besides the schedule. */
  datatype Books = Books(balances: map<string, int>, payments: map<string, Payment>)

  /** Every payment belongs to an existing account. */
  predicate Owned(b: Books)
  {
    forall p | p in b.payments :: b.payments[p].account in b.balances
  }

  /** `r` has the accounts and the payments of `b`; only balances and
      statuses may differ. */
  predicate SameShape(b: Books, r: Books)
  {
    && r.balances.Keys == b.balances.Keys
    && r.payments.Keys == b.payments.Keys
    && forall p | p in b.payments :: r.payments[p].(status := b.payments[p].status) == b.payments[p]
  }

  // ---------------------------------------------------------------------
  // The schedule: every scheduled id names a payment due at that time, and
  // a payment is still in progress exactly when it is scheduled.

  predicate ScheduleOk(schedule: map<int, seq<string>>, payments: map<string, Payment>)
  {
    && (forall t | t in schedule :: Distinct(schedule[t]))
    && (forall t, i | t in schedule && 0 <= i < |schedule[t]| ::
          schedule[t][i] in payments && payments[schedule[t][i]].cashbackTs == t)
    && (forall p | p in payments ::
          payments[p].status == InProgress <==>
          payments[p].cashbackTs in schedule && p in schedule[payments[p].cashbackTs])
  }

  /** `setdefault(time, []).append(p)`. */
  function Appended(schedule: map<int, seq<string>>, time: int, p: string): (r: map<int, seq<string>>)
    ensures time in r && p in r[time]
    ensures forall t | t != time :: (t in r <==> t in schedule) && (t in schedule ==> r[t] == schedule[t])
  {
    schedule[time := (if time in schedule then schedule[time] else []) + [p]]
  }

  // ---------------------------------------------------------------------
  // The drain

  /** One scheduled id handled: a payment still in progress credits its
      cashback to its account and is marked received; anything else is
      skipped. */
  function SettleOne(b: Books, p: string): (r: Books)
    requires Owned(b)
  {
    if p !in b.payments || b.payments[p].status != InProgress then b
    else
      var info := b.payments[p];
      Books(b.balances[info.account := b.balances[info.account] + info.cashback],
            b.payments[p := info.(status := CashbackReceived)])
  }

  /** The ids of one due time, handled in list order. */
  function Settle(b: Books, pids: seq<string>): (r: Books)
    requires Owned(b)
    ensures Owned(r) && r.balances.Keys == b.balances.Keys && r.payments.Keys == b.payments.Keys
  {
    if pids == [] then b else SettleOne(Settle(b, pids[..|pids| - 1]), pids[|pids| - 1])
  }

  /** Handling ids changes balances and statuses only. */
  lemma {:induction false} SettleShape(b: Books, pids: seq<string>)
    requires Owned(b)
    ensures SameShape(b, Settle(b, pids))
  {
    if pids != [] {
      SettleShape(b, pids[..|pids| - 1]);
    }
  }

  lemma SettleStep(b: Books, pids: seq<string>, j: int)
    requires Owned(b) && 0 <= j < |pids|
    ensures Settle(b, pids[..j + 1]) == SettleOne(Settle(b, pids[..j]), pids[j])
  {
    assert pids[..j + 1][..j] == pids[..j];
  }

  /** The lists of several due times, handled in the given order. */
  function SettleAll(b: Books, times: seq<int>, schedule: map<int, seq<string>>): (r: Books)
    requires Owned(b)
    ensures Owned(r) && r.balances.Keys == b.balances.Keys && r.payments.Keys == b.payments.Keys
  {
    if times == [] then b
    else
      var t := times[|times| - 1];
      Settle(SettleAll(b, times[..|times| - 1], schedule), if t in schedule then schedule[t] else [])
  }

  lemma {:induction false} SettleAllShape(b: Books, times: seq<int>, schedule: map<int, seq<string>>)
    requires Owned(b)
    ensures SameShape(b, SettleAll(b, times, schedule))
  {
    if times != [] {
      var t := times[|times| - 1];
      var mid := SettleAll(b, times[..|times| - 1], schedule);
      SettleAllShape(b, times[..|times| - 1], schedule);
      SettleShape(mid, if t in schedule then schedule[t] else []);
    }
  }

  /** The keys `_process_cashbacks` handles: those in `(last, ts]`. */
  function DueKeys(schedule: map<int, seq<string>>, last: int, ts: int): (r: set<int>)
    ensures forall t :: t in r <==> t in schedule && last < t <= ts
  {
    set t | t in schedule && last < t <= ts
  }

  predicate Ascending(s: seq<int>)
  {
    forall i, j | 0 <= i < j < |s| :: s[i] < s[j]
  }

  /** A non-empty set has an element. */
  lemma HasElement(s: set<int>)
    requires s != {}
    ensures exists x :: x in s
  {
    var none: set<int> := {};
    assert (forall x :: x !in s) ==> s == none;
  }

  lemma {:induction false} LeastExists(s: set<int>)
    requires s != {}
    ensures exists m :: m in s && forall x | x in s :: m <= x
    decreases |s|
  {
    HasElement(s);
    var y :| y in s;
    if s != {y} {
      LeastExists(s - {y});
      var m :| m in s - {y} && forall x | x in s - {y} :: m <= x;
      if y < m {
        forall x | x in s ensures y <= x {
          if x != y {
            assert x in s - {y};
          }
        }
      } else {
        forall x | x in s ensures m <= x {
          if x != y {
            assert x in s - {y};
          }
        }
      }
    } else {
      assert forall x | x in s :: y <= x;
    }
  }

  ghost function Least(s: set<int>): (m: int)
    requires s != {}
    ensures m in s && forall x | x in s :: m <= x
  {
    LeastExists(s);
    var m :| m in s && forall x | x in s :: m <= x; m
  }

  /** `sorted(s)`. */
  ghost function SortedOf(s: set<int>): (r: seq<int>)
    ensures forall x :: x in r <==> x in s
    decreases |s|
  {
    if s == {} then []
    else
      var m := Least(s);
      [m] + SortedOf(s - {m})
  }

  lemma {:induction false} SortedOfAscending(s: set<int>)
    ensures Ascending(SortedOf(s))
    decreases |s|
  {
    if s != {} {
      var m := Least(s);
      var rest := SortedOf(s - {m});
      SortedOfAscending(s - {m});
      forall i | 0 <= i < |rest| ensures m < rest[i] {
        assert rest[i] in s - {m};
      }
      assert SortedOf(s) == [m] + rest;
    }
  }

  /** The smallest element is unique, so any way of finding it finds
      `Least(s)`, and `SortedOf` starts with it. */
  lemma LeastFirst(s: set<int>, m: int)
    requires m in s && forall x | x in s :: m <= x
    ensures m == Least(s)
    ensures SortedOf(s) == [m] + SortedOf(s - {m})
  {
  }

  /** The elements of a sequence of times. */
  function Members(s: seq<int>): set<int>
  {
    set x | x in s
  }

  /** The balances and payments after `_process_cashbacks(ts)`. */
  ghost function DrainedBooks(b: Books, schedule: map<int, seq<string>>, last: int, ts: int): Books
    requires Owned(b)
  {
    SettleAll(b, SortedOf(DueKeys(schedule, last, ts)), schedule)
  }

  /** The schedule after `_process_cashbacks(ts)`: the due keys deleted. */
  function DrainedSchedule(schedule: map<int, seq<string>>, last: int, ts: int): (r: map<int, seq<string>>)
    ensures forall t :: t in r <==> t in schedule && (t <= last || ts < t)
  {
    schedule - DueKeys(schedule, last, ts)
  }

  // ---------------------------------------------------------------------
  // What a drain does to each payment and each balance

  lemma {:induction false} SettleStatus(b: Books, pids: seq<string>)
    requires Owned(b)
    ensures forall p | p in b.payments ::
      Settle(b, pids).payments[p].status == if p in pids then CashbackReceived else b.payments[p].status
  {
    if pids != [] {
      var init := pids[..|pids| - 1];
      var q := pids[|pids| - 1];
      SettleStatus(b, init);
      forall p | p in b.payments
        ensures Settle(b, pids).payments[p].status == if p in pids then CashbackReceived else b.payments[p].status
      {
        assert p in pids <==> p in init || p == q;
      }
    }
  }

  /** An id scheduled at one of `times`. */
  predicate InAny(times: seq<int>, schedule: map<int, seq<string>>, p: string)
  {
    exists i | 0 <= i < |times| :: times[i] in schedule && p in schedule[times[i]]
  }

  lemma {:induction false} SettleAllStatus(b: Books, times: seq<int>, schedule: map<int, seq<string>>)
    requires Owned(b)
    ensures forall p | p in b.payments ::
      SettleAll(b, times, schedule).payments[p].status ==
      if InAny(times, schedule, p) then CashbackReceived else b.payments[p].status
  {
    if times != [] {
      var init := times[..|times| - 1];
      var t := times[|times| - 1];
      var mid := SettleAll(b, init, schedule);
      SettleAllStatus(b, init, schedule);
      var pids := if t in schedule then schedule[t] else [];
      SettleStatus(mid, pids);
      forall p | p in b.payments
        ensures SettleAll(b, times, schedule).payments[p].status ==
                if InAny(times, schedule, p) then CashbackReceived else b.payments[p].status
      {
        if InAny(init, schedule, p) {
          var i :| 0 <= i < |init| && init[i] in schedule && p in schedule[init[i]];
          assert times[i] == init[i];
        }
        if t in schedule && p in schedule[t] {
          assert times[|times| - 1] == t;
        }
        if InAny(times, schedule, p) && !(t in schedule && p in schedule[t]) {
          var i :| 0 <= i < |times| && times[i] in schedule && p in schedule[times[i]];
          assert i < |init| && init[i] == times[i];
        }
      }
    }
  }

  /** A drain marks received exactly the payments scheduled at a due key,
      and leaves every other status alone. */
  lemma DrainStatus(b: Books, schedule: map<int, seq<string>>, last: int, ts: int)
    requires Owned(b) && ScheduleOk(schedule, b.payments)
    ensures forall p | p in b.payments ::
      var info := b.payments[p];
      DrainedBooks(b, schedule, last, ts).payments[p].status ==
      if last < info.cashbackTs <= ts && info.cashbackTs in schedule && p in schedule[info.cashbackTs]
      then CashbackReceived else info.status
  {
    var times := SortedOf(DueKeys(schedule, last, ts));
    SettleAllStatus(b, times, schedule);
    forall p | p in b.payments
      ensures InAny(times, schedule, p) <==>
        var info := b.payments[p];
        last < info.cashbackTs <= ts && info.cashbackTs in schedule && p in schedule[info.cashbackTs]
    {
      var cts := b.payments[p].cashbackTs;
      if InAny(times, schedule, p) {
        var i :| 0 <= i < |times| && times[i] in schedule && p in schedule[times[i]];
        var j :| 0 <= j < |schedule[times[i]]| && schedule[times[i]][j] == p;
        assert times[i] in times;
      }
      if last < cts <= ts && cts in schedule && p in schedule[cts] {
        assert cts in times;
        var i :| 0 <= i < |times| && times[i] == cts;
      }
    }
  }

  /** The cashback a list of distinct ids credits to `id`: the cashback of
      each of its payments that is still in progress. */
  function Gain(b: Books, pids: seq<string>, id: string): int
  {
    if pids == [] then 0
    else
      var p := pids[|pids| - 1];
      Gain(b, pids[..|pids| - 1], id) +
      if p in b.payments && b.payments[p].status == InProgress && b.payments[p].account == id
      then b.payments[p].cashback else 0
  }

  /** Handling a due list credits each payment in progress once. */
  lemma {:induction false} SettleBalance(b: Books, pids: seq<string>)
    requires Owned(b) && Distinct(pids)
    ensures forall id | id in b.balances :: Settle(b, pids).balances[id] == b.balances[id] + Gain(b, pids, id)
  {
    if pids != [] {
      var init := pids[..|pids| - 1];
      var q := pids[|pids| - 1];
      assert Distinct(init);
      assert q !in init;
      SettleBalance(b, init);
      SettleStatus(b, init);
      SettleShape(b, init);
      var mid := Settle(b, init);
      if q in b.payments {
        assert mid.payments[q] == b.payments[q];
      }
    }
  }

  /** Ids whose payments were already received are skipped: nothing is
      credited twice. */
  lemma {:induction false} SettleReceived(b: Books, pids: seq<string>)
    requires Owned(b)
    requires forall i | 0 <= i < |pids| :: pids[i] in b.payments ==> b.payments[pids[i]].status == CashbackReceived
    ensures Settle(b, pids) == b
  {
    if pids != [] {
      SettleReceived(b, pids[..|pids| - 1]);
    }
  }

  /** Handling the same list twice credits nothing the second time. */
  lemma SettleTwice(b: Books, pids: seq<string>)
    requires Owned(b)
    ensures Settle(Settle(b, pids), pids) == Settle(b, pids)
  {
    SettleStatus(b, pids);
    SettleReceived(Settle(b, pids), pids);
  }

  /** After a drain at `ts`, a second drain at `ts` finds nothing due. */
  lemma DrainTwice(b: Books, schedule: map<int, seq<string>>, last: int, ts: int)
    requires Owned(b)
    ensures var s := DrainedSchedule(schedule, last, ts);
      && DrainedSchedule(s, Max(last, ts), ts) == s
      && DrainedBooks(b, s, Max(last, ts), ts) == b
  {
    var s := DrainedSchedule(schedule, last, ts);
    assert DueKeys(s, Max(last, ts), ts) == {};
  }

  /** A drain keeps the payment table and the schedule consistent. */
  lemma DrainOk(b: Books, schedule: map<int, seq<string>>, last: int, ts: int)
    requires Owned(b) && ScheduleOk(schedule, b.payments)
    ensures ScheduleOk(DrainedSchedule(schedule, last, ts), DrainedBooks(b, schedule, last, ts).payments)
  {
    DrainStatus(b, schedule, last, ts);
    var s := DrainedSchedule(schedule, last, ts);
    var r := DrainedBooks(b, schedule, last, ts);
    SettleAllShape(b, SortedOf(DueKeys(schedule, last, ts)), schedule);
    assert SameShape(b, r);
    forall t, i | t in s && 0 <= i < |s[t]| ensures s[t][i] in r.payments && r.payments[s[t][i]].cashbackTs == t {
      assert r.payments[s[t][i]].(status := b.payments[s[t][i]].status) == b.payments[s[t][i]];
    }
    forall p | p in r.payments
      ensures r.payments[p].status == InProgress <==> r.payments[p].cashbackTs in s && p in s[r.payments[p].cashbackTs]
    {
      assert r.payments[p].(status := b.payments[p].status) == b.payments[p];
    }
  }

  /** With every key past `last`, a drain at or after a payment's due time
      credits it. */
  lemma DrainCredits(b: Books, schedule: map<int, seq<string>>, last: int, ts: int, p: string)
    requires Owned(b) && ScheduleOk(schedule, b.payments)
    requires forall t | t in schedule :: last < t
    requires p in b.payments && b.payments[p].cashbackTs <= ts
    ensures DrainedBooks(b, schedule, last, ts).payments[p].status == CashbackReceived
  {
    DrainStatus(b, schedule, last, ts);
  }

  /** The `_outgoing_total.get(id, 0)` of every account. */
  function Spending(balances: map<string, int>, outgoing: map<string, int>): (r: map<string, int>)
    ensures r.Keys == balances.Keys
  {
    map id | id in balances :: if id in outgoing then outgoing[id] else 0
  }

  /** A new payment keeps the table and the schedule consistent. */
  lemma PayOk(schedule: map<int, seq<string>>, payments: map<string, Payment>, p: string, info: Payment)
    requires ScheduleOk(schedule, payments) && p !in payments && info.status == InProgress
    ensures ScheduleOk(Appended(schedule, info.cashbackTs, p), payments[p := info])
  {
    var s := Appended(schedule, info.cashbackTs, p);
    var m := payments[p := info];
    var t0 := info.cashbackTs;
    var old0 := if t0 in schedule then schedule[t0] else [];
    assert p !in old0;
    assert s[t0] == old0 + [p];
    forall t, i | t in s && 0 <= i < |s[t]| ensures s[t][i] in m && m[s[t][i]].cashbackTs == t {
      if t == t0 && i < |old0| {
        assert s[t][i] == schedule[t][i];
      }
    }
    forall t | t in s ensures Distinct(s[t]) {
      if t == t0 {
        forall i, j | 0 <= i < j < |s[t]| ensures s[t][i] != s[t][j] {
          if j < |old0| {
            assert s[t][i] == old0[i] && s[t][j] == old0[j];
          } else {
            assert s[t][i] == old0[i];
          }
        }
      }
    }
    forall q | q in m ensures m[q].status == InProgress <==> m[q].cashbackTs in s && q in s[m[q].cashbackTs] {
      if q != p && m[q].cashbackTs == t0 {
        assert q in s[t0] <==> q in old0;
      }
    }
  }

  /** The invariant of the object: the two per-account maps have the same
      accounts, payments belong to accounts, payment ids were issued by the
      counter, and the schedule matches the payments in progress. */
  predicate Consistent(balances: map<string, int>, outgoing: map<string, int>, payments: map<string, Payment>,
                       schedule: map<int, seq<string>>, issued: int)
  {
    && outgoing.Keys == balances.Keys
    && Owned(Books(balances, payments))
    && (forall p | p in payments :: IssuedName(p, issued))
    && ScheduleOk(schedule, payments)
  }

  /** A payment keeps the state consistent, under a fresh id. */
  lemma PaidConsistent(balances: map<string, int>, outgoing: map<string, int>, payments: map<string, Payment>,
                       schedule: map<int, seq<string>>, issued: nat, id: string, info: Payment)
    requires Consistent(balances, outgoing, payments, schedule, issued)
    requires id in balances && info.account == id && info.status == InProgress
    ensures var pid := PaymentId(issued + 1);
      && pid !in payments
      && Consistent(balances[id := balances[id] - info.amount], outgoing[id := outgoing[id] + info.amount],
                    payments[pid := info], Appended(schedule, info.cashbackTs, pid), issued + 1)
  {
    var pid := PaymentId(issued + 1);
    forall p | p in payments ensures p != pid && IssuedName(p, issued + 1) {
      FreshName(p, issued);
    }
    IssuedNameOf(issued + 1, issued + 1);
    PayOk(schedule, payments, pid, info);
  }

  /** What `pay` does once the drain is done, from the books `b`, the
      outgoing totals `o`, the counter `n` and the schedule `s` to `b2`,
      `o2`, `n2` and `s2`: a missing account or one that cannot cover
      `amount` changes nothing; otherwise the account is debited, its
      outgoing total grows by `amount`, the counter issues a fresh id, and
      the payment is recorded in progress with its cashback
      `(amount * 2) // 100` scheduled one day later. */
  predicate PayStep(b: Books, o: map<string, int>, n: nat, s: map<int, seq<string>>,
                    ts: int, id: string, amount: int, r: Option<string>,
                    b2: Books, o2: map<string, int>, n2: nat, s2: map<int, seq<string>>)
  {
    && (r.None? <==> id !in b.balances || b.balances[id] < amount)
    && (r.None? ==> b2 == b && o2 == o && n2 == n && s2 == s)
    && (r.Some? ==>
      && id in o
      && n2 == n + 1
      && r == Some(PaymentId(n2))
      && r.value !in b.payments
      && b2.balances == b.balances[id := b.balances[id] - amount]
      && o2 == o[id := o[id] + amount]
      && b2.payments == b.payments[r.value := Payment(id, amount, FloorCashback(amount), ts + MillisecondsInDay, InProgress)]
      && s2 == Appended(s, ts + MillisecondsInDay, r.value))
  }

  /** A drain keeps the object consistent, and keeps every pending key
      past the last processed time. */
  lemma DrainConsistent(balances: map<string, int>, outgoing: map<string, int>, payments: map<string, Payment>,
                        schedule: map<int, seq<string>>, issued: int, last: int, ts: int)
    requires Consistent(balances, outgoing, payments, schedule, issued)
    ensures var d := DrainedBooks(Books(balances, payments), schedule, last, ts);
      var s := DrainedSchedule(schedule, last, ts);
      && Consistent(d.balances, outgoing, d.payments, s, issued)
      && ((forall t | t in schedule :: last < t) ==> forall t | t in s :: Max(last, ts) < t)
  {
    DrainOk(Books(balances, payments), schedule, last, ts);
  }

  /** A pay step keeps the object consistent. */
  lemma PayStepOk(b: Books, o: map<string, int>, n: nat, s: map<int, seq<string>>,
                  ts: int, id: string, amount: int, r: Option<string>,
                  b2: Books, o2: map<string, int>, n2: nat, s2: map<int, seq<string>>)
    requires Consistent(b.balances, o, b.payments, s, n)
    requires PayStep(b, o, n, s, ts, id, amount, r, b2, o2, n2, s2)
    ensures Consistent(b2.balances, o2, b2.payments, s2, n2)
  {
    if r.Some? {
      PaidConsistent(b.balances, o, b.payments, s, n, id,
                     Payment(id, amount, FloorCashback(amount), ts + MillisecondsInDay, InProgress));
    }
  }

  class BankingSystem {
    /** `_balances`. */
    var balances: map<string, int>
    /** `_outgoing_total`. */
    var outgoingTotal: map<string, int>
    /** `_next_payment_id`. */
    var nextPaymentId: nat
    /** `_payments`. */
    var payments: map<string, Payment>
    /** `_cashback_schedule`. */
    var schedule: map<int, seq<string>>
    /** `_last_processed_ts`. */
    var lastProcessedTs: int

    ghost predicate Valid()
      reads this
    {
      Consistent(balances, outgoingTotal, payments, schedule, nextPaymentId)
    }

    /** Every pending key lies past the last processed time, so a later
        drain reaches it. */
    predicate Ahead()
      reads this
    {
      forall t | t in schedule :: lastProcessedTs < t
    }

    constructor ()
      ensures Valid() && Ahead()
      ensures balances == map[] && outgoingTotal == map[] && nextPaymentId == 0
      ensures payments == map[] && schedule == map[] && lastProcessedTs == 0
    {
      balances := map[];
      outgoingTotal := map[];
      nextPaymentId := 0;
      payments := map[];
      schedule := map[];
      lastProcessedTs := 0;
    }

    /** `sorted(due_times)`, taking the smallest remaining time each step. */
    static method SortTimes(due: set<int>) returns (r: seq<int>)
      ensures r == SortedOf(due)
    {
      r := [];
      var rest := due;
      while rest != {}
        invariant r + SortedOf(rest) == SortedOf(due)
        decreases rest
      {
        LeastExists(rest);
        var m :| m in rest && forall x | x in rest :: m <= x;
        LeastFirst(rest, m);
        ghost var tail := SortedOf(rest - {m});
        assert (r + [m]) + tail == r + ([m] + tail);
        r := r + [m];
        rest := rest - {m};
      }
      assert SortedOf(rest) == [];
      assert r + [] == r;
    }

    /** The body of the inner loop of `_process_cashbacks` for a payment
        still in progress. */
    method Credit(p: string)
      requires Owned(Books(balances, payments)) && p in payments && payments[p].status == InProgress
      modifies this
      ensures Books(balances, payments) == SettleOne(Books(old(balances), old(payments)), p)
      ensures outgoingTotal == old(outgoingTotal) && nextPaymentId == old(nextPaymentId)
      ensures schedule == old(schedule) && lastProcessedTs == old(lastProcessedTs)
    {
      var info := payments[p];
      balances := balances[info.account := balances[info.account] + info.cashback];
      payments := payments[p := info.(status := CashbackReceived)];
    }

    /** The inner loop of `_process_cashbacks`. */
    method SettleList(pids: seq<string>)
      requires Owned(Books(balances, payments))
      modifies this
      ensures Books(balances, payments) == Settle(Books(old(balances), old(payments)), pids)
      ensures outgoingTotal == old(outgoingTotal) && nextPaymentId == old(nextPaymentId)
      ensures schedule == old(schedule) && lastProcessedTs == old(lastProcessedTs)
    {
      ghost var b0 := Books(balances, payments);
      var j := 0;
      while j < |pids|
        invariant 0 <= j <= |pids|
        invariant Books(balances, payments) == Settle(b0, pids[..j])
        invariant outgoingTotal == old(outgoingTotal) && nextPaymentId == old(nextPaymentId)
        invariant schedule == old(schedule) && lastProcessedTs == old(lastProcessedTs)
      {
        SettleStep(b0, pids, j);
        var p := pids[j];
        if p in payments && payments[p].status == InProgress {
          Credit(p);
        }
        j := j + 1;
      }
      assert pids[..j] == pids;
    }

    /** The outer loop of `_process_cashbacks`: each time in turn, its list
        handled and its key deleted. */
    method SettleTimes(times: seq<int>)
      requires Owned(Books(balances, payments)) && Ascending(times)
      requires forall i | 0 <= i < |times| :: times[i] in schedule
      modifies this
      ensures Books(balances, payments) == SettleAll(Books(old(balances), old(payments)), times, old(schedule))
      ensures schedule == old(schedule) - Members(times)
      ensures outgoingTotal == old(outgoingTotal) && nextPaymentId == old(nextPaymentId)
      ensures lastProcessedTs == old(lastProcessedTs)
    {
      ghost var b0 := Books(balances, payments);
      ghost var s0 := schedule;
      var k := 0;
      while k < |times|
        invariant 0 <= k <= |times|
        invariant Books(balances, payments) == SettleAll(b0, times[..k], s0)
        invariant schedule == s0 - Members(times[..k])
        invariant outgoingTotal == old(outgoingTotal) && nextPaymentId == old(nextPaymentId)
        invariant lastProcessedTs == old(lastProcessedTs)
      {
        var t := times[k];
        assert t !in times[..k];
        assert times[..k + 1][..k] == times[..k];
        assert Members(times[..k + 1]) == Members(times[..k]) + {t};
        SettleList(schedule[t]);
        schedule := schedule - {t};
        k := k + 1;
      }
      assert times[..k] == times;
    }

    /** `_process_cashbacks`: credits the payments scheduled at every key in
        `(_last_processed_ts, ts]`, in ascending order, deletes those keys,
        and moves `_last_processed_ts` up to `ts`. */
    method ProcessCashbacks(ts: int)
      requires Valid()
      modifies this
      ensures Valid()
      ensures Books(balances, payments) == DrainedBooks(Books(old(balances), old(payments)), old(schedule), old(lastProcessedTs), ts)
      ensures schedule == DrainedSchedule(old(schedule), old(lastProcessedTs), ts)
      ensures lastProcessedTs == Max(old(lastProcessedTs), ts)
      ensures outgoingTotal == old(outgoingTotal) && nextPaymentId == old(nextPaymentId)
      ensures old(Ahead()) ==> Ahead()
    {
      DrainConsistent(balances, outgoingTotal, payments, schedule, nextPaymentId, lastProcessedTs, ts);
      Drain(ts);
    }

    /** The body of `_process_cashbacks`: the due keys in ascending order,
        their lists handled and deleted, then the time recorded. */
    method Drain(ts: int)
      requires Owned(Books(balances, payments))
      modifies this
      ensures Books(balances, payments) == DrainedBooks(Books(old(balances), old(payments)), old(schedule), old(lastProcessedTs), ts)
      ensures schedule == DrainedSchedule(old(schedule), old(lastProcessedTs), ts)
      ensures lastProcessedTs == Max(old(lastProcessedTs), ts)
      ensures outgoingTotal == old(outgoingTotal) && nextPaymentId == old(nextPaymentId)
    {
      ghost var s0 := schedule;
      ghost var last0 := lastProcessedTs;
      if schedule == map[] {
        assert DueKeys(s0, last0, ts) == {};
        lastProcessedTs := Max(lastProcessedTs, ts);
        return;
      }
      var due := DueKeys(schedule, lastProcessedTs, ts);
      if due == {} {
        lastProcessedTs := Max(lastProcessedTs, ts);
        return;
      }
      var times := SortTimes(due);
      SortedOfAscending(due);
      forall i | 0 <= i < |times| ensures times[i] in schedule {
        assert times[i] in times;
      }
      SettleTimes(times);
      assert Members(times) == DueKeys(s0, last0, ts);
      lastProcessedTs := Max(lastProcessedTs, ts);
    }

    /** `create_account`: drains, then fails iff the id exists; a new
        account starts with balance 0 and outgoing total 0. */
    method CreateAccount(ts: int, id: string) returns (ok: bool)
      requires Valid()
      modifies this
      ensures Valid()
      ensures var d := DrainedBooks(Books(old(balances), old(payments)), old(schedule), old(lastProcessedTs), ts);
        && (ok <==> id !in d.balances)
        && payments == d.payments
        && balances == (if ok then d.balances[id := 0] else d.balances)
        && outgoingTotal == (if ok then old(outgoingTotal)[id := 0] else old(outgoingTotal))
      ensures schedule == DrainedSchedule(old(schedule), old(lastProcessedTs), ts)
      ensures lastProcessedTs == Max(old(lastProcessedTs), ts) && nextPaymentId == old(nextPaymentId)
    {
      ProcessCashbacks(ts);
      if id in balances {
        return false;
      }
      balances := balances[id := 0];
      outgoingTotal := outgoingTotal[id := 0];
      return true;
    }

    /** `deposit`: drains, then credits an existing account and returns
        its new balance. */
    method Deposit(ts: int, id: string, amount: int) returns (r: Option<int>)
      requires Valid()
      modifies this
      ensures Valid()
      ensures var d := DrainedBooks(Books(old(balances), old(payments)), old(schedule), old(lastProcessedTs), ts);
        && (r.None? <==> id !in d.balances)
        && payments == d.payments
        && (r.None? ==> balances == d.balances)
        && (r.Some? ==> r == Some(d.balances[id] + amount) && balances == d.balances[id := d.balances[id] + amount])
      ensures schedule == DrainedSchedule(old(schedule), old(lastProcessedTs), ts)
      ensures lastProcessedTs == Max(old(lastProcessedTs), ts)
      ensures outgoingTotal == old(outgoingTotal) && nextPaymentId == old(nextPaymentId)
    {
      ProcessCashbacks(ts);
      if id !in balances {
        return None;
      }
      var balance := balances[id] + amount;
      balances := balances[id := balance];
      return Some(balance);
    }

    /** `transfer` after its drain. */
    method ApplyTransfer(source: string, target: string, amount: int) returns (r: Option<int>)
      requires Valid()
      modifies this
      ensures Valid()
      ensures r.None? <==> source !in old(balances) || target !in old(balances) || source == target ||
                           old(balances)[source] < amount
      ensures r.None? ==> balances == old(balances) && outgoingTotal == old(outgoingTotal)
      ensures r.Some? ==>
        && balances == old(balances)[source := old(balances)[source] - amount][target := old(balances)[target] + amount]
        && balances[source] + balances[target] == old(balances)[source] + old(balances)[target]
        && outgoingTotal == old(outgoingTotal)[source := old(outgoingTotal)[source] + amount]
        && r == Some(balances[source])
      ensures payments == old(payments) && schedule == old(schedule)
      ensures lastProcessedTs == old(lastProcessedTs) && nextPaymentId == old(nextPaymentId)
    {
      if source !in balances || target !in balances || source == target {
        return None;
      }
      if balances[source] < amount {
        return None;
      }
      balances := balances[source := balances[source] - amount];
      balances := balances[target := balances[target] + amount];
      outgoingTotal := outgoingTotal[source := outgoingTotal[source] + amount];
      return Some(balances[source]);
    }

    /** `transfer`: drains, then moves `amount` between two distinct
        existing accounts when the source can cover it; the pair's sum is
        kept and the source's outgoing total grows by `amount`. */
    method Transfer(ts: int, source: string, target: string, amount: int) returns (r: Option<int>)
      requires Valid()
      modifies this
      ensures Valid()
      ensures var d := DrainedBooks(Books(old(balances), old(payments)), old(schedule), old(lastProcessedTs), ts);
        && (r.None? <==> source !in d.balances || target !in d.balances || source == target || d.balances[source] < amount)
        && payments == d.payments
        && (r.None? ==> balances == d.balances && outgoingTotal == old(outgoingTotal))
        && (r.Some? ==>
          && balances == d.balances[source := d.balances[source] - amount][target := d.balances[target] + amount]
          && balances[source] + balances[target] == d.balances[source] + d.balances[target]
          && outgoingTotal == old(outgoingTotal)[source := old(outgoingTotal)[source] + amount]
          && r == Some(balances[source]))
      ensures schedule == DrainedSchedule(old(schedule), old(lastProcessedTs), ts)
      ensures lastProcessedTs == Max(old(lastProcessedTs), ts) && nextPaymentId == old(nextPaymentId)
    {
      ProcessCashbacks(ts);
      r := ApplyTransfer(source, target, amount);
    }

    /** The pair-building loop of `top_spenders`. */
    method SpendingTotals() returns (totals: map<string, int>)
      ensures totals == Spending(balances, outgoingTotal)
    {
      totals := map[];
      var rest := balances.Keys;
      while rest != {}
        invariant rest <= balances.Keys
        invariant totals == map id | id in balances && id !in rest :: if id in outgoingTotal then outgoingTotal[id] else 0
        decreases rest
      {
        var id :| id in rest;
        var total := if id in outgoingTotal then outgoingTotal[id] else 0;
        totals := totals[id := total];
        rest := rest - {id};
      }
    }

    /** `top_spenders`: drains, ranks every account by descending outgoing
        total, ties by ascending id, and keeps `top_accounts[:n]`, which for
        a negative `n` drops entries from the end. */
    method TopSpenders(ts: int, n: int) returns (r: seq<Ranking.Spender>)
      requires Valid()
      modifies this
      ensures Valid()
      ensures Books(balances, payments) == DrainedBooks(Books(old(balances), old(payments)), old(schedule), old(lastProcessedTs), ts)
      ensures schedule == DrainedSchedule(old(schedule), old(lastProcessedTs), ts)
      ensures lastProcessedTs == Max(old(lastProcessedTs), ts)
      ensures outgoingTotal == old(outgoingTotal) && nextPaymentId == old(nextPaymentId)
      ensures Ranking.IsTopOf(r, Spending(balances, outgoingTotal))
      ensures |r| == if n >= 0 then Min(n, |balances|) else Max(0, |balances| + n)
    {
      ProcessCashbacks(ts);
      var totals := SpendingTotals();
      var ranked := Ranking.RankAll(totals);
      assert |totals| == |totals.Keys| == |balances.Keys| == |balances|;
      r := Ranking.PySlicePrefix(ranked, n);
      Ranking.PySliceLength(ranked, n);
      assert r == ranked[..|r|];
      Ranking.PrefixIsTop(ranked, totals, |r|);
    }

    /** The bookkeeping of one payment: debit, outgoing total, counter,
        payment table and schedule. */
    method Put(info: Payment, pid: string)
      requires info.account in balances && info.account in outgoingTotal
      modifies this
      ensures balances == old(balances)[info.account := old(balances)[info.account] - info.amount]
      ensures outgoingTotal == old(outgoingTotal)[info.account := old(outgoingTotal)[info.account] + info.amount]
      ensures nextPaymentId == old(nextPaymentId) + 1
      ensures payments == old(payments)[pid := info]
      ensures schedule == Appended(old(schedule), info.cashbackTs, pid)
      ensures lastProcessedTs == old(lastProcessedTs)
    {
      var id := info.account;
      balances, outgoingTotal, nextPaymentId, payments, schedule :=
        balances[id := balances[id] - info.amount],
        outgoingTotal[id := outgoingTotal[id] + info.amount],
        nextPaymentId + 1,
        payments[pid := info],
        Appended(schedule, info.cashbackTs, pid);
    }

    /** `pay` after its drain: debits an existing account that can cover
        `amount`, adds `amount` to its outgoing total, issues the next
        payment id, records the payment in progress and schedules its
        cashback `(amount * 2) // 100` one day later. */
    method ApplyPay(ts: int, id: string, amount: int) returns (r: Option<string>)
      requires Valid()
      modifies this
      ensures Valid()
      ensures PayStep(Books(old(balances), old(payments)), old(outgoingTotal), old(nextPaymentId), old(schedule),
                      ts, id, amount, r, Books(balances, payments), outgoingTotal, nextPaymentId, schedule)
      ensures lastProcessedTs == old(lastProcessedTs)
      ensures old(Ahead()) && old(lastProcessedTs) < ts + MillisecondsInDay ==> Ahead()
    {
      if id !in balances {
        return None;
      }
      if balances[id] < amount {
        return None;
      }
      var info := Payment(id, amount, FloorCashback(amount), ts + MillisecondsInDay, InProgress);
      PaidConsistent(balances, outgoingTotal, payments, schedule, nextPaymentId, id, info);
      var pid := PaymentId(nextPaymentId + 1);
      Put(info, pid);
      return Some(pid);
    }

    /** `pay`: drains, then pays. */
    method Pay(ts: int, id: string, amount: int) returns (r: Option<string>)
      requires Valid()
      modifies this
      ensures Valid()
      ensures PayStep(DrainedBooks(Books(old(balances), old(payments)), old(schedule), old(lastProcessedTs), ts),
                      old(outgoingTotal), old(nextPaymentId), DrainedSchedule(old(schedule), old(lastProcessedTs), ts),
                      ts, id, amount, r, Books(balances, payments), outgoingTotal, nextPaymentId, schedule)
      ensures lastProcessedTs == Max(old(lastProcessedTs), ts)
      ensures old(Ahead()) && old(lastProcessedTs) < ts + MillisecondsInDay ==> Ahead()
    {
      ProcessCashbacks(ts);
      r := ApplyPay(ts, id, amount);
    }

    /** `get_payment_status`: drains, then None for an unknown account, an
        unknown payment or a payment of another account; otherwise the
        payment's status. */
    method GetPaymentStatus(ts: int, id: string, payment: string) returns (r: Option<PaymentStatus>)
      requires Valid()
      modifies this
      ensures Valid()
      ensures Books(balances, payments) == DrainedBooks(Books(old(balances), old(payments)), old(schedule), old(lastProcessedTs), ts)
      ensures schedule == DrainedSchedule(old(schedule), old(lastProcessedTs), ts)
      ensures lastProcessedTs == Max(old(lastProcessedTs), ts)
      ensures outgoingTotal == old(outgoingTotal) && nextPaymentId == old(nextPaymentId)
      ensures r.Some? <==> id in balances && payment in payments && payments[payment].account == id
      ensures r.Some? ==> r.value == payments[payment].status
      ensures r == Some(InProgress) ==> payment in schedule[payments[payment].cashbackTs]
    {
      ProcessCashbacks(ts);
      if id !in balances {
        return None;
      }
      if payment !in payments {
        return None;
      }
      var info := payments[payment];
      if info.account != id {
        return None;
      }
      return Some(info.status);
    }
  }
}
