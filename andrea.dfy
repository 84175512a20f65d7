// Andrea/banking_system_impl.py. Cashback is not logged when a payment is
// made: it is scheduled in `cashback_events`, a dict from due time to a
// list of (account id, amount, payment id) events, and a drain pops every
// due time in the dict's insertion order, crediting each event's account
// and logging a "cashback" record then. A merge deletes the merged-away
// account and retargets its scheduled events to the survivor.

module Andrea {
  import opened Common
  import LogLedger
  import Ranking

  /** An account dict: "balance", "transactions" and "created_at". */
  datatype Acct = Acct(balance: int, transactions: seq<Txn>, createdAt: int)

  /** One scheduled cashback: `(acc_id, cashback_amt, payment_id)`. */
  datatype Event = Event(account: string, amount: int, payment: string)

  /** `cashback_events`: its keys in insertion order and the dict itself. */
  datatype Schedule = Schedule(times: seq<int>, events: map<int, seq<Event>>)

  predicate WellFormed(s: Schedule)
  {
    && Distinct(s.times)
    && (forall t | t in s.times :: t in s.events)
    && (forall t | t in s.events :: t in s.times)
  }

  // ---------------------------------------------------------------------
  // Records: "created", "deposited", "transferred in", "transferred out",
  // "withdrawn" (with "payment_id"), "cashback" (with "payment_id"), and
  // the "paid" that `top_spenders` and `get_balance` also recognise.

  /** What a record did to the balance. */
  function Effect(t: Txn): int
  {
    if t.operation == "deposited" || t.operation == "transferred in" || t.operation == "cashback" then t.amount
    else if t.operation == "transferred out" || t.operation == "withdrawn" || t.operation == "paid" then -t.amount
    else 0
  }

  function Live(log: seq<Txn>): int
  {
    Total(Effect, log)
  }

  /** The amount a record adds to `top_spenders`' total. */
  function SpentAmount(t: Txn): int
  {
    if t.operation == "transferred out" || t.operation == "paid" || t.operation == "withdrawn" then t.amount else 0
  }

  function Spent(log: seq<Txn>): int
  {
    Total(SpentAmount, log)
  }

  /** The record a drain logs for a due event. */
  function CashbackRecord(time: int, e: Event): Txn
  {
    Txn(time, "cashback", e.amount, Some(e.payment), false, None)
  }

  /** The records the operations log, and what each does to the balance
      and to the outgoing total. */
  lemma RecordEffects(ts: int, amount: int, pid: string, e: Event)
    ensures Live([Plain(ts, "created", 0)]) == 0
    ensures Live([Plain(ts, "deposited", amount)]) == amount
    ensures Live([Plain(ts, "transferred out", amount)]) == -amount
    ensures Live([Plain(ts, "transferred in", amount)]) == amount
    ensures Live([WithdrawnRecord(ts, amount, pid)]) == -amount
    ensures Live([CashbackRecord(ts, e)]) == e.amount
    ensures Spent([WithdrawnRecord(ts, amount, pid)]) == amount
    ensures Spent([Plain(ts, "transferred out", amount)]) == amount
    ensures Spent([CashbackRecord(ts, e)]) == 0
  {
    assert "created"[0] != "deposited"[0] && "created"[0] != "transferred in"[0] && "created"[1] != "cashback"[1];
    assert "created"[0] != "transferred out"[0] && "created"[0] != "withdrawn"[0] && "created"[0] != "paid"[0];
    assert "withdrawn"[0] != "deposited"[0] && "withdrawn"[0] != "transferred in"[0] && "withdrawn"[0] != "cashback"[0];
    assert "cashback"[0] != "transferred out"[0] && "cashback"[0] != "paid"[0] && "cashback"[0] != "withdrawn"[0];
    assert "transferred out"[12] != "transferred in"[12];
    LogLedger.TotalSingle(Effect, Plain(ts, "created", 0));
    LogLedger.TotalSingle(Effect, Plain(ts, "deposited", amount));
    LogLedger.TotalSingle(Effect, Plain(ts, "transferred out", amount));
    LogLedger.TotalSingle(Effect, Plain(ts, "transferred in", amount));
    LogLedger.TotalSingle(Effect, WithdrawnRecord(ts, amount, pid));
    LogLedger.TotalSingle(Effect, CashbackRecord(ts, e));
    LogLedger.TotalSingle(SpentAmount, WithdrawnRecord(ts, amount, pid));
    LogLedger.TotalSingle(SpentAmount, Plain(ts, "transferred out", amount));
    LogLedger.TotalSingle(SpentAmount, CashbackRecord(ts, e));
  }

  /** The two records of a transfer. */
  lemma TransferRecords(ts: int, amount: int, issued: int)
    ensures Live([Plain(ts, "transferred out", amount)]) == -amount
    ensures Live([Plain(ts, "transferred in", amount)]) == amount
    ensures LogIssued([Plain(ts, "transferred out", amount)], issued) && LogIssued([Plain(ts, "transferred in", amount)], issued)
  {
    assert "transferred out"[12] != "transferred in"[12];
    LogLedger.TotalSingle(Effect, Plain(ts, "transferred out", amount));
    LogLedger.TotalSingle(Effect, Plain(ts, "transferred in", amount));
  }

  /** The record of a payment. */
  lemma PayRecord(ts: int, amount: int, pid: string, issued: nat)
    requires IssuedName(pid, issued)
    ensures Live([WithdrawnRecord(ts, amount, pid)]) == -amount
    ensures LogIssued([WithdrawnRecord(ts, amount, pid)], issued)
  {
    LogLedger.TotalSingle(Effect, WithdrawnRecord(ts, amount, pid));
  }

  /** The record `pay` logs. */
  function WithdrawnRecord(ts: int, amount: int, pid: string): Txn
  {
    Txn(ts, "withdrawn", amount, Some(pid), false, None)
  }

  // ---------------------------------------------------------------------
  // The invariant: balances follow the logs, and every payment id in a log
  // or in the schedule was issued by `withdraw_count`.

  predicate LogIssued(log: seq<Txn>, issued: int)
  {
    forall i | 0 <= i < |log| :: log[i].payment.Some? ==> IssuedName(log[i].payment.value, issued)
  }

  predicate AcctOk(a: Acct, issued: int)
  {
    a.balance == Live(a.transactions) && LogIssued(a.transactions, issued)
  }

  ghost predicate AccountsOk(accounts: map<string, Acct>, issued: int)
  {
    forall id | id in accounts :: AcctOk(accounts[id], issued)
  }

  predicate EventsIssued(events: map<int, seq<Event>>, issued: int)
  {
    forall t, i | t in events && 0 <= i < |events[t]| :: IssuedName(events[t][i].payment, issued)
  }

  /** An account that logs records whose running effect is `delta` and
      whose payment ids were issued stays in order. */
  lemma ExtendOk(a: Acct, delta: int, recs: seq<Txn>, issued: int)
    requires AcctOk(a, issued) && Live(recs) == delta && LogIssued(recs, issued)
    ensures AcctOk(a.(balance := a.balance + delta, transactions := a.transactions + recs), issued)
  {
    TotalAppend(Effect, a.transactions, recs);
    var log := a.transactions + recs;
    forall i | 0 <= i < |log| && log[i].payment.Some? ensures IssuedName(log[i].payment.value, issued) {
      if i >= |a.transactions| {
        assert log[i] == recs[i - |a.transactions|];
      }
    }
  }

  lemma IssuedLater(accounts: map<string, Acct>, events: map<int, seq<Event>>, issued: int, issued': int)
    requires AccountsOk(accounts, issued) && EventsIssued(events, issued) && issued <= issued'
    ensures AccountsOk(accounts, issued') && EventsIssued(events, issued')
  {
    forall id | id in accounts ensures AcctOk(accounts[id], issued') {
      assert AcctOk(accounts[id], issued);
    }
  }

  // ---------------------------------------------------------------------
  // The drain

  /** A due event together with the due time it was scheduled under. */
  datatype Due = Due(time: int, event: Event)

  /** The due times, in the dict's insertion order: `pending_times`. */
  function DueTimes(times: seq<int>, ts: int): (r: seq<int>)
    ensures forall x :: x in r <==> x in times && x <= ts
  {
    if times == [] then []
    else DueTimes(times[..|times| - 1], ts) + (if times[|times| - 1] <= ts then [times[|times| - 1]] else [])
  }

  lemma {:induction false} DueTimesDistinct(times: seq<int>, ts: int)
    requires Distinct(times)
    ensures Distinct(DueTimes(times, ts))
  {
    if times != [] {
      var init := times[..|times| - 1];
      DueTimesDistinct(init, ts);
      assert times[|times| - 1] !in init;
    }
  }

  /** The times left in the dict after the drain, in their order. */
  function Keep(times: seq<int>, ts: int): (r: seq<int>)
    ensures forall x :: x in r <==> x in times && x > ts
  {
    if times == [] then [] else (if times[0] > ts then [times[0]] else []) + Keep(times[1..], ts)
  }

  /** The events of one popped time, each with its due time. */
  function Batch(time: int, evs: seq<Event>): (r: seq<Due>)
    ensures |r| == |evs|
    ensures forall i | 0 <= i < |r| :: r[i] == Due(time, evs[i])
  {
    seq(|evs|, i requires 0 <= i < |evs| => Due(time, evs[i]))
  }

  /** The events of the popped times, in the order they are handled. */
  function Batches(done: seq<int>, events: map<int, seq<Event>>): seq<Due>
  {
    if done == [] then []
    else
      var t := done[|done| - 1];
      Batches(done[..|done| - 1], events) + Batch(t, if t in events then events[t] else [])
  }

  /** One event handled: its account, if it still exists, is credited and
      logs a cashback record stamped with the due time; otherwise the event
      is dropped. */
  function Credit(accounts: map<string, Acct>, d: Due): (r: map<string, Acct>)
    ensures r.Keys == accounts.Keys
  {
    if d.event.account in accounts then
      var a := accounts[d.event.account];
      accounts[d.event.account := a.(balance := a.balance + d.event.amount,
                                     transactions := a.transactions + [CashbackRecord(d.time, d.event)])]
    else accounts
  }

  function CreditAll(accounts: map<string, Acct>, dues: seq<Due>): (r: map<string, Acct>)
    ensures r.Keys == accounts.Keys
  {
    if dues == [] then accounts else Credit(CreditAll(accounts, dues[..|dues| - 1]), dues[|dues| - 1])
  }

  /** The accounts after `process_cashback(ts)`. */
  function DrainAccounts(accounts: map<string, Acct>, s: Schedule, ts: int): (r: map<string, Acct>)
    ensures r.Keys == accounts.Keys
  {
    CreditAll(accounts, Batches(DueTimes(s.times, ts), s.events))
  }

  /** The schedule after `process_cashback(ts)`: every time up to `ts` is
      gone, the later ones stay in their order. */
  function DrainSchedule(s: Schedule, ts: int): (r: Schedule)
    ensures forall t :: t in r.events <==> t in s.events && t > ts
    ensures forall t | t in r.events :: r.events[t] == s.events[t]
  {
    Schedule(Keep(s.times, ts), map t | t in s.events && t > ts :: s.events[t])
  }

  lemma {:induction false} CreditAllAppend(accounts: map<string, Acct>, xs: seq<Due>, ys: seq<Due>)
    ensures CreditAll(accounts, xs + ys) == CreditAll(CreditAll(accounts, xs), ys)
    decreases |ys|
  {
    if ys == [] {
      assert xs + ys == xs;
    } else {
      var init := ys[..|ys| - 1];
      assert (xs + ys)[..|xs + ys| - 1] == xs + init;
      CreditAllAppend(accounts, xs, init);
    }
  }

  /** The sum of the due amounts meant for `id`. */
  function DueFor(dues: seq<Due>, id: string): int
  {
    if dues == [] then 0
    else DueFor(dues[..|dues| - 1], id) + (if dues[|dues| - 1].event.account == id then dues[|dues| - 1].event.amount else 0)
  }

  /** Every existing account is credited exactly the due amounts meant for
      it, and no account appears or disappears. */
  lemma {:induction false} CreditAllBalance(accounts: map<string, Acct>, dues: seq<Due>, id: string)
    requires id in accounts
    ensures CreditAll(accounts, dues)[id].balance == accounts[id].balance + DueFor(dues, id)
  {
    if dues != [] {
      CreditAllBalance(accounts, dues[..|dues| - 1], id);
    }
  }

  lemma {:induction false} CreditAllOk(accounts: map<string, Acct>, dues: seq<Due>, issued: int)
    requires AccountsOk(accounts, issued)
    requires forall i | 0 <= i < |dues| :: IssuedName(dues[i].event.payment, issued)
    ensures AccountsOk(CreditAll(accounts, dues), issued)
  {
    if dues != [] {
      var init := dues[..|dues| - 1];
      CreditAllOk(accounts, init, issued);
      var d := dues[|dues| - 1];
      var m := CreditAll(accounts, init);
      if d.event.account in m {
        assert AcctOk(m[d.event.account], issued);
        RecordEffects(d.time, 0, "", d.event);
        ExtendOk(m[d.event.account], d.event.amount, [CashbackRecord(d.time, d.event)], issued);
      }
    }
  }

  lemma {:induction false} BatchesIssued(done: seq<int>, events: map<int, seq<Event>>, issued: int)
    requires EventsIssued(events, issued)
    ensures forall i | 0 <= i < |Batches(done, events)| :: IssuedName(Batches(done, events)[i].event.payment, issued)
  {
    if done != [] {
      BatchesIssued(done[..|done| - 1], events, issued);
    }
  }

  /** The drain keeps the invariant. */
  lemma DrainOk(accounts: map<string, Acct>, s: Schedule, ts: int, issued: int)
    requires WellFormed(s) && AccountsOk(accounts, issued) && EventsIssued(s.events, issued)
    ensures AccountsOk(DrainAccounts(accounts, s, ts), issued)
    ensures WellFormed(DrainSchedule(s, ts)) && EventsIssued(DrainSchedule(s, ts).events, issued)
  {
    BatchesIssued(DueTimes(s.times, ts), s.events, issued);
    CreditAllOk(accounts, Batches(DueTimes(s.times, ts), s.events), issued);
    KeepDistinct(s.times, ts);
  }

  lemma {:induction false} KeepDistinct(times: seq<int>, ts: int)
    requires Distinct(times)
    ensures Distinct(Keep(times, ts))
  {
    if times != [] {
      var rest := times[1..];
      KeepDistinct(rest, ts);
      assert forall j | 0 <= j < |rest| :: rest[j] != times[0];
      var k := Keep(rest, ts);
      if times[0] > ts {
        var r := [times[0]] + k;
        forall i, j | 0 <= i < j < |r| ensures r[i] != r[j] {
          assert r[j] == k[j - 1] && r[j] in rest;
          if i > 0 {
            assert r[i] == k[i - 1];
          }
        }
      }
    }
  }

  lemma {:induction false} KeepAll(times: seq<int>, ts: int)
    requires forall x | x in times :: x > ts
    ensures Keep(times, ts) == times
  {
    if times != [] {
      assert times[0] in times;
      assert forall x | x in times[1..] :: x in times;
      KeepAll(times[1..], ts);
      assert times == [times[0]] + times[1..];
    }
  }

  /** A second drain at the same time changes nothing: every due time was
      popped by the first. */
  lemma DrainTwice(accounts: map<string, Acct>, s: Schedule, ts: int)
    ensures DrainAccounts(accounts, DrainSchedule(s, ts), ts) == accounts
    ensures DrainSchedule(DrainSchedule(s, ts), ts) == DrainSchedule(s, ts)
  {
    var s' := DrainSchedule(s, ts);
    KeepAll(s'.times, ts);
    NoneDue(s'.times, ts);
  }

  lemma {:induction false} NoneDue(times: seq<int>, ts: int)
    requires forall x | x in times :: x > ts
    ensures DueTimes(times, ts) == []
  {
    if times != [] {
      var init := times[..|times| - 1];
      forall x | x in init ensures x > ts {
        var k :| 0 <= k < |init| && init[k] == x;
        assert times[k] in times;
      }
      NoneDue(init, ts);
      assert times[|times| - 1] in times;
    }
  }

  // Popping due times one at a time, as the drain's second loop does.

  /** `times` without the entries in `gone`. */
  function Without(times: seq<int>, gone: seq<int>): (r: seq<int>)
    ensures forall x :: x in r <==> x in times && x !in gone
  {
    if times == [] then [] else (if times[0] in gone then [] else [times[0]]) + Without(times[1..], gone)
  }

  lemma {:induction false} WithoutDistinct(times: seq<int>, gone: seq<int>)
    requires Distinct(times)
    ensures Distinct(Without(times, gone))
  {
    if times != [] {
      WithoutDistinct(times[1..], gone);
      assert forall j | 0 <= j < |times[1..]| :: times[1..][j] != times[0];
    }
  }

  lemma {:induction false} WithoutUnused(times: seq<int>, gone: seq<int>, t: int)
    requires t !in times
    ensures Without(times, gone + [t]) == Without(times, gone)
  {
    if times != [] {
      WithoutUnused(times[1..], gone, t);
    }
  }

  /** `del d[t]` on the key list: popping one more time. */
  lemma {:induction false} RemoveWithout(times: seq<int>, gone: seq<int>, t: int)
    requires Distinct(times)
    ensures Distinct(Without(times, gone))
    ensures Remove(Without(times, gone), t) == Without(times, gone + [t])
  {
    WithoutDistinct(times, gone);
    if times != [] {
      var rest := times[1..];
      assert forall j | 0 <= j < |rest| :: rest[j] != times[0];
      assert Distinct(rest);
      RemoveWithout(rest, gone, t);
      var w := Without(rest, gone);
      if times[0] in gone {
        assert Without(times, gone) == w;
        assert Without(times, gone + [t]) == Without(rest, gone + [t]);
      } else if times[0] == t {
        assert Without(times, gone) == [t] + w;
        assert Remove([t] + w, t) == w;
        assert Without(times, gone + [t]) == Without(rest, gone + [t]);
        WithoutUnused(rest, gone, t);
      } else {
        assert Without(times, gone) == [times[0]] + w;
        assert ([times[0]] + w)[1..] == w;
        assert Remove([times[0]] + w, t) == [times[0]] + Remove(w, t);
        assert Without(times, gone + [t]) == [times[0]] + Without(rest, gone + [t]);
      }
    }
  }

  /** With every due time popped, the key list is the drain's. */
  lemma {:induction false} WithoutIsKeep(times: seq<int>, gone: seq<int>, ts: int)
    requires forall x | x in times :: x in gone <==> x <= ts
    ensures Without(times, gone) == Keep(times, ts)
  {
    if times != [] {
      WithoutIsKeep(times[1..], gone, ts);
    }
  }

  lemma {:induction false} WithoutNothing(times: seq<int>)
    ensures Without(times, []) == times
  {
    if times != [] {
      WithoutNothing(times[1..]);
      assert times == [times[0]] + times[1..];
    }
  }

  lemma PoppedNothing(s: Schedule)
    ensures Popped(s, []) == s
  {
    WithoutNothing(s.times);
  }

  lemma PopStep(s: Schedule, gone: seq<int>, t: int)
    requires Distinct(s.times)
    ensures Distinct(Popped(s, gone).times)
    ensures t in s.events && t !in gone ==> t in Popped(s, gone).events && Popped(s, gone).events[t] == s.events[t]
    ensures Schedule(Remove(Popped(s, gone).times, t), Popped(s, gone).events - {t}) == Popped(s, gone + [t])
  {
    RemoveWithout(s.times, gone, t);
  }

  lemma BatchesStep(done: seq<int>, t: int, events: map<int, seq<Event>>)
    ensures Batches(done + [t], events) == Batches(done, events) + Batch(t, if t in events then events[t] else [])
  {
    assert (done + [t])[..|done|] == done;
  }

  /** The schedule once the times in `gone` have been popped. */
  function Popped(s: Schedule, gone: seq<int>): Schedule
  {
    Schedule(Without(s.times, gone), map t | t in s.events && t !in gone :: s.events[t])
  }

  // ---------------------------------------------------------------------
  // Scheduling, retargeting and the pending cashback of an account

  /** `pay`'s scheduling: the event is appended under its due time, and a
      new time goes to the end of the key list. */
  function Scheduled(s: Schedule, time: int, e: Event): (r: Schedule)
    ensures time in r.events && |r.events[time]| > 0 && r.events[time][|r.events[time]| - 1] == e
    ensures forall t | t != time :: (t in r.events <==> t in s.events) && (t in s.events ==> r.events[t] == s.events[t])
  {
    if time in s.events then Schedule(s.times, s.events[time := s.events[time] + [e]])
    else Schedule(s.times + [time], s.events[time := [e]])
  }

  /** The cashback amounts scheduled for `id` in a list of events. */
  function EventSum(evs: seq<Event>, id: string): int
  {
    if evs == [] then 0
    else EventSum(evs[..|evs| - 1], id) + (if evs[|evs| - 1].account == id then evs[|evs| - 1].amount else 0)
  }

  /** The cashback still pending for `id` under the listed times. */
  function PendingFor(times: seq<int>, events: map<int, seq<Event>>, id: string): int
  {
    if times == [] then 0
    else
      var t := times[|times| - 1];
      PendingFor(times[..|times| - 1], events, id) + (if t in events then EventSum(events[t], id) else 0)
  }

  lemma {:induction false} PendingUpdate(times: seq<int>, events: map<int, seq<Event>>, time: int, evs: seq<Event>, id: string)
    requires Distinct(times) && time in times && time in events
    ensures PendingFor(times, events[time := evs], id) == PendingFor(times, events, id) - EventSum(events[time], id) + EventSum(evs, id)
  {
    var init := times[..|times| - 1];
    var last := times[|times| - 1];
    if last == time {
      assert time !in init;
      PendingSame(init, events, time, evs, id);
    } else {
      PendingUpdate(init, events, time, evs, id);
    }
  }

  lemma {:induction false} PendingSame(times: seq<int>, events: map<int, seq<Event>>, time: int, evs: seq<Event>, id: string)
    requires time !in times
    ensures PendingFor(times, events[time := evs], id) == PendingFor(times, events, id)
  {
    if times != [] {
      PendingSame(times[..|times| - 1], events, time, evs, id);
    }
  }

  /** Scheduling an event adds its amount to its account's pending
      cashback and to no other account's. */
  lemma ScheduledPending(s: Schedule, time: int, e: Event, id: string)
    requires WellFormed(s)
    ensures var r := Scheduled(s, time, e);
      PendingFor(r.times, r.events, id) == PendingFor(s.times, s.events, id) + (if e.account == id then e.amount else 0)
  {
    var r := Scheduled(s, time, e);
    if time in s.events {
      PendingUpdate(s.times, s.events, time, s.events[time] + [e], id);
      assert (s.events[time] + [e])[..|s.events[time]|] == s.events[time];
    } else {
      assert time !in s.times;
      assert r.times == s.times + [time] && r.events == s.events[time := [e]];
      assert (s.times + [time])[..|s.times|] == s.times;
      PendingSame(s.times, s.events, time, [e], id);
      assert [e][..0] == [];
      assert EventSum([e], id) == if e.account == id then e.amount else 0;
    }
  }

  /** `merge_accounts`' rewrite of one event list: events of `from` now
      credit `to`, everything else unchanged. */
  function Retarget(evs: seq<Event>, from: string, to: string): (r: seq<Event>)
    ensures |r| == |evs|
    ensures forall i | 0 <= i < |r| :: r[i] == if evs[i].account == from then evs[i].(account := to) else evs[i]
  {
    seq(|evs|, i requires 0 <= i < |evs| => if evs[i].account == from then evs[i].(account := to) else evs[i])
  }

  function Retargeted(s: Schedule, from: string, to: string): (r: Schedule)
    ensures r.times == s.times && r.events.Keys == s.events.Keys
  {
    Schedule(s.times, map t | t in s.events :: Retarget(s.events[t], from, to))
  }

  lemma {:induction false} RetargetSum(evs: seq<Event>, from: string, to: string)
    requires from != to
    ensures EventSum(Retarget(evs, from, to), to) == EventSum(evs, to) + EventSum(evs, from)
    ensures EventSum(Retarget(evs, from, to), from) == 0
    ensures forall id | id != from && id != to :: EventSum(Retarget(evs, from, to), id) == EventSum(evs, id)
  {
    if evs != [] {
      var init := evs[..|evs| - 1];
      RetargetSum(init, from, to);
      assert Retarget(evs, from, to)[..|evs| - 1] == Retarget(init, from, to);
    }
  }

  /** The documented merge contract for pending cashback: after
      retargeting, the merged-away account has none pending and the
      survivor has both accounts' pending cashback; every other account
      keeps its own. */
  lemma {:induction false} RetargetPending(times: seq<int>, events: map<int, seq<Event>>, from: string, to: string)
    requires from != to
    ensures var e := Retargeted(Schedule(times, events), from, to).events;
      && PendingFor(times, e, to) == PendingFor(times, events, to) + PendingFor(times, events, from)
      && PendingFor(times, e, from) == 0
      && forall id | id != from && id != to :: PendingFor(times, e, id) == PendingFor(times, events, id)
  {
    if times != [] {
      RetargetPending(times[..|times| - 1], events, from, to);
      var t := times[|times| - 1];
      if t in events {
        RetargetSum(events[t], from, to);
      }
    }
  }

  // ---------------------------------------------------------------------
  // Merging logs: `list.sort(key=timestamp)`, which is stable.

  predicate SortedByTime(log: seq<Txn>)
  {
    forall i, j | 0 <= i < j < |log| :: log[i].timestamp <= log[j].timestamp
  }

  /** Places `x` after every record of `s` that is not later than it. */
  function InsertByTime(s: seq<Txn>, x: Txn): (r: seq<Txn>)
  {
    if s == [] || s[|s| - 1].timestamp <= x.timestamp then s + [x]
    else InsertByTime(s[..|s| - 1], x) + [s[|s| - 1]]
  }

  /** Stable insertion sort by timestamp. */
  function SortByTime(s: seq<Txn>): seq<Txn>
  {
    if s == [] then [] else InsertByTime(SortByTime(s[..|s| - 1]), s[|s| - 1])
  }

  /** A bound on every timestamp of `s` and on `x` bounds the insertion. */
  lemma {:induction false} InsertBound(s: seq<Txn>, x: Txn, b: int)
    requires forall i | 0 <= i < |s| :: s[i].timestamp <= b
    requires x.timestamp <= b
    ensures forall i | 0 <= i < |InsertByTime(s, x)| :: InsertByTime(s, x)[i].timestamp <= b
  {
    if s != [] && x.timestamp < s[|s| - 1].timestamp {
      InsertBound(s[..|s| - 1], x, b);
    }
  }

  lemma SortedSnoc(s: seq<Txn>, y: Txn)
    requires SortedByTime(s)
    requires forall i | 0 <= i < |s| :: s[i].timestamp <= y.timestamp
    ensures SortedByTime(s + [y])
  {
  }

  lemma {:induction false} InsertFacts(s: seq<Txn>, x: Txn)
    requires SortedByTime(s)
    ensures SortedByTime(InsertByTime(s, x))
    ensures multiset(InsertByTime(s, x)) == multiset(s) + multiset{x}
  {
    if s == [] || s[|s| - 1].timestamp <= x.timestamp {
      SortedSnoc(s, x);
    } else {
      var init := s[..|s| - 1];
      var last := s[|s| - 1];
      InsertFacts(init, x);
      InsertBound(init, x, last.timestamp);
      SortedSnoc(InsertByTime(init, x), last);
      assert s == init + [last];
    }
  }

  /** The sort orders the log by timestamp and keeps every record. */
  lemma {:induction false} SortFacts(s: seq<Txn>)
    ensures SortedByTime(SortByTime(s))
    ensures multiset(SortByTime(s)) == multiset(s)
  {
    if s != [] {
      var init := s[..|s| - 1];
      SortFacts(init);
      InsertFacts(SortByTime(init), s[|s| - 1]);
      assert s == init + [s[|s| - 1]];
    }
  }

  /** An already ordered log is left as it is. */
  lemma {:induction false} SortSorted(s: seq<Txn>)
    requires SortedByTime(s)
    ensures SortByTime(s) == s
  {
    if s != [] {
      var init := s[..|s| - 1];
      SortSorted(init);
    }
  }

  lemma {:induction false} InsertTotal(f: Txn -> int, s: seq<Txn>, x: Txn)
    ensures Total(f, InsertByTime(s, x)) == Total(f, s) + f(x)
  {
    if s == [] || s[|s| - 1].timestamp <= x.timestamp {
      assert (s + [x])[..|s|] == s;
    } else {
      var init := s[..|s| - 1];
      InsertTotal(f, init, x);
      var r := InsertByTime(init, x);
      assert (r + [s[|s| - 1]])[..|r|] == r;
    }
  }

  /** Any per-record sum is the same over the sorted log. */
  lemma {:induction false} SortTotal(f: Txn -> int, s: seq<Txn>)
    ensures Total(f, SortByTime(s)) == Total(f, s)
  {
    if s != [] {
      SortTotal(f, s[..|s| - 1]);
      InsertTotal(f, SortByTime(s[..|s| - 1]), s[|s| - 1]);
    }
  }

  /** The accounts after merging `id2` into `id1` at `ts`. */
  function Absorbed(m: map<string, Acct>, id1: string, id2: string, ts: int): map<string, Acct>
    requires id1 in m && id2 in m
  {
    var a1 := m[id1];
    var a2 := m[id2];
    m[id1 := Acct(a1.balance + a2.balance,
                  SortByTime(a1.transactions + Tagged(a2.transactions, ts)),
                  Min(a1.createdAt, a2.createdAt))] - {id2}
  }

  /** After a merge `top_spenders` sees the survivor with the outgoing money
      of both accounts, no donor, and every other total unchanged: neither
      the tags nor the sort change what the records add up to. */
  lemma MergedSpending(m: map<string, Acct>, id1: string, id2: string, ts: int)
    requires id1 != id2 && id1 in m && id2 in m
    ensures var r := SpendingOf(Absorbed(m, id1, id2, ts));
      && r.Keys == m.Keys - {id2}
      && r[id1] == SpendingOf(m)[id1] + SpendingOf(m)[id2]
      && forall id | id in r && id != id1 :: r[id] == SpendingOf(m)[id]
  {
    var copies := Tagged(m[id2].transactions, ts);
    TotalPointwise(SpentAmount, SpentAmount, copies, m[id2].transactions);
    TotalAppend(SpentAmount, m[id1].transactions, copies);
    SortTotal(SpentAmount, m[id1].transactions + copies);
  }

  /** The combined log of a merge names only issued payments. */
  lemma MergedLogIssued(log1: seq<Txn>, log2: seq<Txn>, ts: int, issued: int)
    requires LogIssued(log1, issued) && LogIssued(log2, issued)
    ensures LogIssued(SortByTime(log1 + Tagged(log2, ts)), issued)
  {
    var joined := log1 + Tagged(log2, ts);
    assert LogIssued(joined, issued) by {
      forall k | 0 <= k < |joined| && joined[k].payment.Some?
        ensures IssuedName(joined[k].payment.value, issued)
      {
        if k >= |log1| { assert joined[k].payment == log2[k - |log1|].payment; }
      }
    }
    SortFacts(joined);
    var sorted := SortByTime(joined);
    forall i | 0 <= i < |sorted| && sorted[i].payment.Some? ensures IssuedName(sorted[i].payment.value, issued) {
      assert sorted[i] in multiset(joined);
      var k :| 0 <= k < |joined| && joined[k] == sorted[i];
    }
  }

  /** The survivor of a merge stays in order: the sort and the tags leave
      the running balance of the combined log unchanged, and every payment
      id in it was issued. */
  lemma MergedAcctOk(a1: Acct, a2: Acct, ts: int, issued: int)
    requires AcctOk(a1, issued) && AcctOk(a2, issued)
    ensures AcctOk(Acct(a1.balance + a2.balance,
                        SortByTime(a1.transactions + Tagged(a2.transactions, ts)),
                        Min(a1.createdAt, a2.createdAt)), issued)
  {
    var copies := Tagged(a2.transactions, ts);
    TotalPointwise(Effect, Effect, copies, a2.transactions);
    TotalAppend(Effect, a1.transactions, copies);
    SortTotal(Effect, a1.transactions + copies);
    MergedLogIssued(a1.transactions, a2.transactions, ts, issued);
  }

  /** Merging keeps the invariant of every account. */
  lemma AbsorbedOk(m: map<string, Acct>, id1: string, id2: string, ts: int, issued: int)
    requires AccountsOk(m, issued) && id1 in m && id2 in m && id1 != id2
    ensures AccountsOk(Absorbed(m, id1, id2, ts), issued)
  {
    assert AcctOk(m[id1], issued) && AcctOk(m[id2], issued);
    MergedAcctOk(m[id1], m[id2], ts, issued);
  }

  // ---------------------------------------------------------------------
  // Queries

  /** The answer of `get_payment_status` for an existing account's log:
      None without a "withdrawn" record of `payment`; CASHBACK_RECEIVED
      once a cashback record of it is logged, IN_PROGRESS before. */
  function StatusOf(log: seq<Txn>, payment: string): (r: Option<PaymentStatus>)
  {
    if !Withdrew(log, payment) then None
    else if CashbackLogged(log, payment) then Some(CashbackReceived)
    else Some(InProgress)
  }

  predicate Withdrew(log: seq<Txn>, payment: string)
  {
    exists i | 0 <= i < |log| :: log[i].operation == "withdrawn" && log[i].payment == Some(payment)
  }

  predicate CashbackLogged(log: seq<Txn>, payment: string)
  {
    exists i | 0 <= i < |log| :: log[i].operation == "cashback" && log[i].payment == Some(payment)
  }

  // ---------------------------------------------------------------------
  // A payment's status over time

  /** The cashback records a run of dues appends to the log of `id`. */
  function CashbacksFor(dues: seq<Due>, id: string): seq<Txn>
  {
    if dues == [] then []
    else
      var d := dues[|dues| - 1];
      CashbacksFor(dues[..|dues| - 1], id) + (if d.event.account == id then [CashbackRecord(d.time, d.event)] else [])
  }

  /** Some due of `dues` is an event of account `id` for `payment`. */
  predicate DuesFor(dues: seq<Due>, id: string, payment: string)
  {
    exists k | 0 <= k < |dues| :: dues[k].event.account == id && dues[k].event.payment == payment
  }

  /** Some event of a list belongs to account `id` and `payment`. */
  predicate HasEventFor(evs: seq<Event>, id: string, payment: string)
  {
    exists j | 0 <= j < |evs| :: evs[j].account == id && evs[j].payment == payment
  }

  /** Crediting a run of dues appends, to an existing account's log, the
      cashback records of exactly the dues addressed to it, in order. */
  lemma {:induction false} CreditAllLog(accounts: map<string, Acct>, dues: seq<Due>, id: string)
    requires id in accounts
    ensures CreditAll(accounts, dues)[id].transactions == accounts[id].transactions + CashbacksFor(dues, id)
  {
    if dues != [] {
      CreditAllLog(accounts, dues[..|dues| - 1], id);
    }
  }

  /** A log joined from two parts has a withdrawal or a cashback record of
      a payment iff one of its parts has. */
  lemma JoinedLogs(a: seq<Txn>, b: seq<Txn>, payment: string)
    ensures Withdrew(a + b, payment) <==> Withdrew(a, payment) || Withdrew(b, payment)
    ensures CashbackLogged(a + b, payment) <==> CashbackLogged(a, payment) || CashbackLogged(b, payment)
  {
    forall i | 0 <= i < |a| ensures (a + b)[i] == a[i] { }
    forall i | 0 <= i < |b| ensures (a + b)[|a| + i] == b[i] { }
    if Withdrew(a + b, payment) {
      var i :| 0 <= i < |a + b| && (a + b)[i].operation == "withdrawn" && (a + b)[i].payment == Some(payment);
      if i >= |a| { assert b[i - |a|] == (a + b)[i]; }
    }
    if CashbackLogged(a + b, payment) {
      var i :| 0 <= i < |a + b| && (a + b)[i].operation == "cashback" && (a + b)[i].payment == Some(payment);
      if i >= |a| { assert b[i - |a|] == (a + b)[i]; }
    }
  }

  /** The appended cashback records withdraw nothing, and carry `payment`
      iff a due for `id` and `payment` was among the dues. */
  lemma {:induction false} CashbacksForLogged(dues: seq<Due>, id: string, payment: string)
    ensures !Withdrew(CashbacksFor(dues, id), payment)
    ensures CashbackLogged(CashbacksFor(dues, id), payment) <==> DuesFor(dues, id, payment)
  {
    if dues != [] {
      var init := dues[..|dues| - 1];
      var d := dues[|dues| - 1];
      var tail := if d.event.account == id then [CashbackRecord(d.time, d.event)] else [];
      CashbacksForLogged(init, id, payment);
      JoinedLogs(CashbacksFor(init, id), tail, payment);
      if DuesFor(init, id, payment) {
        var k :| 0 <= k < |init| && init[k].event.account == id && init[k].event.payment == payment;
        assert dues[k] == init[k];
      }
      if DuesFor(dues, id, payment) && !DuesFor(init, id, payment) {
        assert tail != [] && tail[0].operation == "cashback" && tail[0].payment == Some(payment);
      }
      if CashbackLogged(tail, payment) {
        assert dues[|dues| - 1] == d;
      }
    }
  }

  /** Two runs of dues joined hold an event for `id` and `payment` iff
      one of them does. */
  lemma JoinedDues(a: seq<Due>, b: seq<Due>, id: string, payment: string)
    ensures DuesFor(a + b, id, payment) <==> DuesFor(a, id, payment) || DuesFor(b, id, payment)
  {
    forall k | 0 <= k < |a| ensures (a + b)[k] == a[k] { }
    forall k | 0 <= k < |b| ensures (a + b)[|a| + k] == b[k] { }
    if DuesFor(a + b, id, payment) {
      var k :| 0 <= k < |a + b| && (a + b)[k].event.account == id && (a + b)[k].event.payment == payment;
      if k >= |a| { assert b[k - |a|] == (a + b)[k]; }
    }
  }

  /** The dues of one popped time hold an event for `id` and `payment` iff
      its list does. */
  lemma BatchFor(time: int, evs: seq<Event>, id: string, payment: string)
    ensures DuesFor(Batch(time, evs), id, payment) <==> HasEventFor(evs, id, payment)
  {
    var r := Batch(time, evs);
    if HasEventFor(evs, id, payment) {
      var j :| 0 <= j < |evs| && evs[j].account == id && evs[j].payment == payment;
      assert r[j].event == evs[j];
    }
  }

  /** The dues of the popped times hold an event for `id` and `payment`
      iff some popped time that the dict holds lists one. */
  lemma {:induction false} BatchesFor(done: seq<int>, events: map<int, seq<Event>>, id: string, payment: string)
    ensures DuesFor(Batches(done, events), id, payment) <==>
      exists t | t in done :: t in events && HasEventFor(events[t], id, payment)
  {
    if done != [] {
      var init := done[..|done| - 1];
      var t := done[|done| - 1];
      var evs := if t in events then events[t] else [];
      BatchesFor(init, events, id, payment);
      JoinedDues(Batches(init, events), Batch(t, evs), id, payment);
      BatchFor(t, evs, id, payment);
      assert done == init + [t];
      if exists u | u in done :: u in events && HasEventFor(events[u], id, payment) {
        var u :| u in done && u in events && HasEventFor(events[u], id, payment);
        assert u in init || u == t;
      }
      if exists u | u in init :: u in events && HasEventFor(events[u], id, payment) {
        var u :| u in init && u in events && HasEventFor(events[u], id, payment);
        assert u in done;
      }
    }
  }

  /** A successful `pay` under a fresh id reads IN_PROGRESS, and after a
      drain at `later` it reads CASHBACK_RECEIVED exactly when `later`
      has reached the payment time plus one day. */
  lemma PaymentLifecycle(accounts: map<string, Acct>, s: Schedule, ts: int, id: string, amount: int, pid: string, later: int)
    requires WellFormed(s) && id in accounts && Unused(accounts, s.events, pid)
    ensures var a2 := accounts[id := Logged(accounts[id], -amount, [WithdrawnRecord(ts, amount, pid)])];
      var s2 := Scheduled(s, ts + MillisecondsInDay, Event(id, FloorCashback(amount), pid));
      && StatusOf(a2[id].transactions, pid) == Some(InProgress)
      && StatusOf(DrainAccounts(a2, s2, later)[id].transactions, pid) ==
         Some(if ts + MillisecondsInDay <= later then CashbackReceived else InProgress)
  {
    var a2 := accounts[id := Logged(accounts[id], -amount, [WithdrawnRecord(ts, amount, pid)])];
    var s2 := Scheduled(s, ts + MillisecondsInDay, Event(id, FloorCashback(amount), pid));
    var due := ts + MillisecondsInDay;
    var log := accounts[id].transactions;
    var rec := [WithdrawnRecord(ts, amount, pid)];
    // the new log: a withdrawal of `pid` and no cashback record of it
    assert !CashbackLogged(log, pid) by {
      forall i | 0 <= i < |log| ensures log[i].payment != Some(pid) { }
    }
    assert Withdrew(rec, pid) && !CashbackLogged(rec, pid) by {
      assert rec[0].operation == "withdrawn" && rec[0].payment == Some(pid);
    }
    JoinedLogs(log, rec, pid);
    // the drain appends the cashback records of the dues addressed to `id`
    var dues := Batches(DueTimes(s2.times, later), s2.events);
    CreditAllLog(a2, dues, id);
    JoinedLogs(a2[id].transactions, CashbacksFor(dues, id), pid);
    CashbacksForLogged(dues, id, pid);
    BatchesFor(DueTimes(s2.times, later), s2.events, id, pid);
    // only the event `pay` scheduled carries `pid`
    assert due in s2.times by {
      if due in s.events { assert due in s.times; }
    }
    var evs := s2.events[due];
    assert HasEventFor(evs, id, pid) by {
      assert evs[|evs| - 1] == Event(id, FloorCashback(amount), pid);
    }
    forall u | u in s2.events && u != due ensures !HasEventFor(s2.events[u], id, pid) {
      assert s2.events[u] == s.events[u];
    }
  }

  /** The sorted log of a merge holds a record of `op` for `p` iff the
      donor's log does, when the survivor's own log has no record for `p`. */
  lemma SortedJoinHas(log1: seq<Txn>, log2: seq<Txn>, ts: int, p: string, op: string)
    requires forall i | 0 <= i < |log1| :: log1[i].payment != Some(p)
    ensures var s := SortByTime(log1 + Tagged(log2, ts));
      (exists i | 0 <= i < |s| :: s[i].operation == op && s[i].payment == Some(p)) <==>
      (exists i | 0 <= i < |log2| :: log2[i].operation == op && log2[i].payment == Some(p))
  {
    var copies := Tagged(log2, ts);
    var j := log1 + copies;
    var s := SortByTime(j);
    SortFacts(j);
    if exists i | 0 <= i < |s| :: s[i].operation == op && s[i].payment == Some(p) {
      var i :| 0 <= i < |s| && s[i].operation == op && s[i].payment == Some(p);
      assert s[i] in multiset(j);
      var k :| 0 <= k < |j| && j[k] == s[i];
      assert k >= |log1| && j[k] == copies[k - |log1|];
    }
    if exists i | 0 <= i < |log2| :: log2[i].operation == op && log2[i].payment == Some(p) {
      var i :| 0 <= i < |log2| && log2[i].operation == op && log2[i].payment == Some(p);
      assert j[|log1| + i] == copies[i];
      assert j[|log1| + i] in multiset(s);
      var k :| 0 <= k < |s| && s[k] == j[|log1| + i];
    }
  }

  /** A merge keeps the donor's payments answerable on the survivor: for a
      payment the survivor's own log has no record of, the merged and
      sorted log answers as the donor's log did. */
  lemma StatusAfterMerge(log1: seq<Txn>, log2: seq<Txn>, ts: int, p: string)
    requires forall i | 0 <= i < |log1| :: log1[i].payment != Some(p)
    ensures StatusOf(SortByTime(log1 + Tagged(log2, ts)), p) == StatusOf(log2, p)
  {
    SortedJoinHas(log1, log2, ts, p, "withdrawn");
    SortedJoinHas(log1, log2, ts, p, "cashback");
  }

  /** `get_balance`'s filter at `timeAt`: records after `timeAt`, and copies
      made by a merge after `timeAt`, do not count. */
  function AsOfAmount(timeAt: int): Txn -> int
  {
    (t: Txn) =>
      if t.mergedAt.Some? && timeAt < t.mergedAt.value then 0
      else if t.timestamp > timeAt then 0
      else Effect(t)
  }

  function History(log: seq<Txn>, timeAt: int): int
  {
    Total(AsOfAmount(timeAt), log)
  }

  /** Some record is not later than `timeAt`: the account "existed". */
  predicate ExistedBy(log: seq<Txn>, timeAt: int)
  {
    exists i | 0 <= i < |log| :: log[i].timestamp <= timeAt
  }

  function BalanceQuery(log: seq<Txn>, timeAt: int): Option<int>
  {
    if ExistedBy(log, timeAt) then Some(History(log, timeAt)) else None
  }

  /** Rebuilding the balance as of a time no record and no merge is later
      than gives the running balance. */
  lemma HistoryMatchesLive(log: seq<Txn>, now: int)
    requires forall i | 0 <= i < |log| :: log[i].timestamp <= now
    requires forall i | 0 <= i < |log| :: log[i].mergedAt.None? || log[i].mergedAt.value <= now
    ensures History(log, now) == Live(log)
  {
    TotalPointwise(AsOfAmount(now), Effect, log, log);
  }

  /** The survivor's history after a merge at `ts`: before the merge only
      its own records count; from the merge on, the merged-away account's
      count as well, provided its own merge tags are not later than `ts`. */
  lemma HistoryAfterMerge(log1: seq<Txn>, log2: seq<Txn>, ts: int, timeAt: int)
    ensures timeAt < ts ==> History(SortByTime(log1 + Tagged(log2, ts)), timeAt) == History(log1, timeAt)
    ensures ts <= timeAt && (forall i | 0 <= i < |log2| :: log2[i].mergedAt.None? || log2[i].mergedAt.value <= ts) ==>
      History(SortByTime(log1 + Tagged(log2, ts)), timeAt) == History(log1, timeAt) + History(log2, timeAt)
  {
    SortTotal(AsOfAmount(timeAt), log1 + Tagged(log2, ts));
    JoinedHistory(log1, log2, ts, timeAt);
  }

  lemma JoinedHistory(log1: seq<Txn>, log2: seq<Txn>, ts: int, timeAt: int)
    ensures timeAt < ts ==> History(log1 + Tagged(log2, ts), timeAt) == History(log1, timeAt)
    ensures ts <= timeAt && (forall i | 0 <= i < |log2| :: log2[i].mergedAt.None? || log2[i].mergedAt.value <= ts) ==>
      History(log1 + Tagged(log2, ts), timeAt) == History(log1, timeAt) + History(log2, timeAt)
  {
    var f := AsOfAmount(timeAt);
    var copies := Tagged(log2, ts);
    TotalAppend(f, log1, copies);
    if timeAt < ts {
      forall i | 0 <= i < |copies| ensures f(copies[i]) == 0 {
        TagEffect(log2[i], ts, timeAt);
      }
      LogLedger.TotalZero(f, copies);
    } else if forall i | 0 <= i < |log2| :: log2[i].mergedAt.None? || log2[i].mergedAt.value <= ts {
      forall i | 0 <= i < |copies| ensures f(copies[i]) == f(log2[i]) {
        TagEffect(log2[i], ts, timeAt);
      }
      TotalPointwise(f, f, copies, log2);
    }
  }

  /** A record copied with merge tag `ts` counts nothing before `ts`, and
      from `ts` on counts as the original when the original's own tag is
      not later than `ts`. */
  lemma TagEffect(t: Txn, ts: int, timeAt: int)
    ensures timeAt < ts ==> AsOfAmount(timeAt)(t.(mergedAt := Some(ts))) == 0
    ensures ts <= timeAt && (t.mergedAt.None? || t.mergedAt.value <= ts) ==>
      AsOfAmount(timeAt)(t.(mergedAt := Some(ts))) == AsOfAmount(timeAt)(t)
  {
  }

  /** `top_spenders`' totals: the outgoing money of every account. */
  function SpendingOf(accounts: map<string, Acct>): (r: map<string, int>)
    ensures r.Keys == accounts.Keys
  {
    map id | id in accounts :: Spent(accounts[id].transactions)
  }

  /** The in-place `append` and `+=` of the operations. */
  function Logged(a: Acct, delta: int, recs: seq<Txn>): Acct
  {
    a.(balance := a.balance + delta, transactions := a.transactions + recs)
  }

  /** The accounts after `transfer` moves `amount` from `source` to
      `target`, each side logging its record. */
  function Moved(m: map<string, Acct>, ts: int, source: string, target: string, amount: int): map<string, Acct>
    requires source in m && target in m
  {
    m[source := Logged(m[source], -amount, [Plain(ts, "transferred out", amount)])]
     [target := Logged(m[target], amount, [Plain(ts, "transferred in", amount)])]
  }

  /** A transfer keeps every account in order. */
  lemma MovedOk(m: map<string, Acct>, ts: int, source: string, target: string, amount: int, issued: int)
    requires source in m && target in m && source != target && AccountsOk(m, issued)
    ensures AccountsOk(Moved(m, ts, source, target, amount), issued)
  {
    TransferRecords(ts, amount, issued);
    assert AcctOk(m[source], issued) && AcctOk(m[target], issued);
    ExtendOk(m[source], -amount, [Plain(ts, "transferred out", amount)], issued);
    ExtendOk(m[target], amount, [Plain(ts, "transferred in", amount)], issued);
  }

  /** No log record and no scheduled event carries payment id `p`. */
  ghost predicate Unused(accounts: map<string, Acct>, events: map<int, seq<Event>>, p: string)
  {
    && (forall id, i | id in accounts && 0 <= i < |accounts[id].transactions| :: accounts[id].transactions[i].payment != Some(p))
    && (forall t, i | t in events && 0 <= i < |events[t]| :: events[t][i].payment != p)
  }

  /** The next payment id is new. */
  lemma NextUnused(accounts: map<string, Acct>, events: map<int, seq<Event>>, issued: nat)
    requires AccountsOk(accounts, issued) && EventsIssued(events, issued)
    ensures Unused(accounts, events, PaymentId(issued + 1))
  {
    forall id, i | id in accounts && 0 <= i < |accounts[id].transactions|
      ensures accounts[id].transactions[i].payment != Some(PaymentId(issued + 1))
    {
      assert AcctOk(accounts[id], issued);
      if accounts[id].transactions[i].payment.Some? {
        FreshName(accounts[id].transactions[i].payment.value, issued);
      }
    }
    forall t, i | t in events && 0 <= i < |events[t]| ensures events[t][i].payment != PaymentId(issued + 1) {
      FreshName(events[t][i].payment, issued);
    }
  }

  lemma ScheduledOk(s: Schedule, time: int, e: Event, issued: int)
    requires WellFormed(s) && EventsIssued(s.events, issued) && IssuedName(e.payment, issued)
    ensures WellFormed(Scheduled(s, time, e)) && EventsIssued(Scheduled(s, time, e).events, issued)
  {
    var r := Scheduled(s, time, e);
    if time !in s.events {
      assert time !in s.times;
      forall i, j | 0 <= i < j < |r.times| ensures r.times[i] != r.times[j] {
        if j == |s.times| {
          assert r.times[i] == s.times[i];
        } else {
          assert r.times[i] == s.times[i] && r.times[j] == s.times[j];
        }
      }
    }
    forall t, i | t in r.events && 0 <= i < |r.events[t]| ensures IssuedName(r.events[t][i].payment, issued) {
      if t == time && time in s.events && i < |s.events[time]| {
        assert r.events[t][i] == s.events[time][i];
      }
    }
  }

  lemma RetargetedOk(s: Schedule, from: string, to: string, issued: int)
    requires WellFormed(s) && EventsIssued(s.events, issued)
    ensures WellFormed(Retargeted(s, from, to)) && EventsIssued(Retargeted(s, from, to).events, issued)
  {
    var r := Retargeted(s, from, to);
    forall t, i | t in r.events && 0 <= i < |r.events[t]| ensures IssuedName(r.events[t][i].payment, issued) {
      assert r.events[t][i].payment == s.events[t][i].payment;
    }
  }

  /** A payment keeps the state in order: the next id is new, the debited
      account logs its withdrawal and the schedule gains the cashback. */
  lemma PaidOk(accounts: map<string, Acct>, s: Schedule, issued: nat, ts: int, id: string, amount: int)
    requires WellFormed(s) && AccountsOk(accounts, issued) && EventsIssued(s.events, issued) && id in accounts
    ensures var pid := PaymentId(issued + 1);
      var s2 := Scheduled(s, ts + MillisecondsInDay, Event(id, FloorCashback(amount), pid));
      && Unused(accounts, s.events, pid)
      && WellFormed(s2) && EventsIssued(s2.events, issued + 1)
      && AccountsOk(accounts[id := Logged(accounts[id], -amount, [WithdrawnRecord(ts, amount, pid)])], issued + 1)
  {
    var pid := PaymentId(issued + 1);
    NextUnused(accounts, s.events, issued);
    IssuedLater(accounts, s.events, issued, issued + 1);
    IssuedNameOf(issued + 1, issued + 1);
    PayRecord(ts, amount, pid, issued + 1);
    ScheduledOk(s, ts + MillisecondsInDay, Event(id, FloorCashback(amount), pid), issued + 1);
    assert AcctOk(accounts[id], issued + 1);
    ExtendOk(accounts[id], -amount, [WithdrawnRecord(ts, amount, pid)], issued + 1);
  }

  class BankingSystem {
    /** `self.whole_accounts`. */
    var accounts: map<string, Acct>
    /** `self.cashback_events`. */
    var cashbackEvents: Schedule
    /** `self.withdraw_count`: the number of payments made. */
    var withdrawCount: nat

    ghost predicate Valid()
      reads this
    {
      && WellFormed(cashbackEvents)
      && AccountsOk(accounts, withdrawCount)
      && EventsIssued(cashbackEvents.events, withdrawCount)
    }

    constructor ()
      ensures Valid()
      ensures accounts == map[] && cashbackEvents == Schedule([], map[]) && withdrawCount == 0
    {
      accounts := map[];
      cashbackEvents := Schedule([], map[]);
      withdrawCount := 0;
    }

    /** The first loop of `process_cashback`: the due times, in order. */
    static method DueList(times: seq<int>, ts: int) returns (pending: seq<int>)
      ensures pending == DueTimes(times, ts)
    {
      pending := [];
      var i := 0;
      while i < |times|
        invariant 0 <= i <= |times|
        invariant pending == DueTimes(times[..i], ts)
      {
        assert times[..i + 1][..i] == times[..i];
        if times[i] <= ts {
          pending := pending + [times[i]];
        }
        i := i + 1;
      }
      assert times[..i] == times;
    }

    /** The inner loop of `process_cashback`: the popped events of `time`,
        handled in order. */
    method CreditEvents(time: int, evs: seq<Event>)
      modifies this
      ensures accounts == CreditAll(old(accounts), Batch(time, evs))
      ensures cashbackEvents == old(cashbackEvents) && withdrawCount == old(withdrawCount)
    {
      var j := 0;
      while j < |evs|
        invariant 0 <= j <= |evs|
        invariant accounts == CreditAll(old(accounts), Batch(time, evs)[..j])
        invariant cashbackEvents == old(cashbackEvents) && withdrawCount == old(withdrawCount)
      {
        var e := evs[j];
        if e.account in accounts {
          var acc := accounts[e.account];
          accounts := accounts[e.account := acc.(balance := acc.balance + e.amount,
                                                 transactions := acc.transactions + [CashbackRecord(time, e)])];
        }
        assert Batch(time, evs)[..j + 1][..j] == Batch(time, evs)[..j];
        j := j + 1;
      }
      assert Batch(time, evs)[..j] == Batch(time, evs);
    }

    /** The second loop of `process_cashback`: pops each time of
        `pending` in turn and hands its events, in order, to their
        accounts. */
    method PopAll(pending: seq<int>)
      requires Distinct(pending) && Distinct(cashbackEvents.times)
      requires forall t | t in pending :: t in cashbackEvents.events
      modifies this
      ensures withdrawCount == old(withdrawCount)
      ensures accounts == CreditAll(old(accounts), Batches(pending, old(cashbackEvents).events))
      ensures cashbackEvents == Popped(old(cashbackEvents), pending)
    {
      ghost var a0 := accounts;
      ghost var s0 := cashbackEvents;
      PoppedNothing(s0);
      assert pending[..0] == [];
      var k := 0;
      while k < |pending|
        invariant 0 <= k <= |pending| && withdrawCount == old(withdrawCount)
        invariant accounts == CreditAll(a0, Batches(pending[..k], s0.events))
        invariant cashbackEvents == Popped(s0, pending[..k])
      {
        var t := pending[k];
        assert t in pending && t !in pending[..k];
        assert pending[..k + 1] == pending[..k] + [t];
        var evs := cashbackEvents.events[t];
        PopStep(s0, pending[..k], t);
        cashbackEvents := Schedule(Remove(cashbackEvents.times, t), cashbackEvents.events - {t});
        CreditEvents(t, evs);
        BatchesStep(pending[..k], t, s0.events);
        CreditAllAppend(a0, Batches(pending[..k], s0.events), Batch(t, evs));
        k := k + 1;
      }
      assert pending[..k] == pending;
    }

    /** `process_cashback`: pops every due time, in the dict's order, and
        hands each of its events to its account. */
    method ProcessCashback(ts: int)
      requires Valid()
      modifies this
      ensures Valid() && withdrawCount == old(withdrawCount)
      ensures accounts == DrainAccounts(old(accounts), old(cashbackEvents), ts)
      ensures cashbackEvents == DrainSchedule(old(cashbackEvents), ts)
    {
      ghost var a0 := accounts;
      ghost var s0 := cashbackEvents;
      DrainOk(a0, s0, ts, withdrawCount);
      var pending := DueList(cashbackEvents.times, ts);
      DueTimesDistinct(s0.times, ts);
      PopAll(pending);
      WithoutIsKeep(s0.times, pending, ts);
      assert cashbackEvents == DrainSchedule(s0, ts);
    }

    /** `create_account`: drains, then fails iff the id exists; a new
        account logs its "created" record. */
    method CreateAccount(ts: int, id: string) returns (ok: bool)
      requires Valid()
      modifies this
      ensures Valid() && withdrawCount == old(withdrawCount)
      ensures cashbackEvents == DrainSchedule(old(cashbackEvents), ts)
      ensures var d := DrainAccounts(old(accounts), old(cashbackEvents), ts);
        && (ok <==> id !in d)
        && (!ok ==> accounts == d)
        && (ok ==> accounts == d[id := Acct(0, [Plain(ts, "created", 0)], ts)])
    {
      ProcessCashback(ts);
      if id in accounts {
        return false;
      }
      RecordEffects(ts, 0, "", Event(id, 0, ""));
      accounts := accounts[id := Acct(0, [Plain(ts, "created", 0)], ts)];
      return true;
    }

    /** Logs records whose payment ids were issued and changes the balance
        by their effect. */
    method Record(id: string, delta: int, recs: seq<Txn>)
      requires Valid() && id in accounts
      requires Live(recs) == delta && LogIssued(recs, withdrawCount)
      modifies this
      ensures Valid() && withdrawCount == old(withdrawCount) && cashbackEvents == old(cashbackEvents)
      ensures accounts == old(accounts)[id := Logged(old(accounts)[id], delta, recs)]
    {
      assert AcctOk(accounts[id], withdrawCount);
      ExtendOk(accounts[id], delta, recs, withdrawCount);
      accounts := accounts[id := Logged(accounts[id], delta, recs)];
    }

    /** `deposit` after its drain. */
    method ApplyDeposit(ts: int, id: string, amount: int) returns (r: Option<int>)
      requires Valid()
      modifies this
      ensures Valid() && withdrawCount == old(withdrawCount) && cashbackEvents == old(cashbackEvents)
      ensures r.None? <==> id !in old(accounts)
      ensures r.None? ==> accounts == old(accounts)
      ensures r.Some? ==>
        && r == Some(old(accounts)[id].balance + amount)
        && accounts == old(accounts)[id := Logged(old(accounts)[id], amount, [Plain(ts, "deposited", amount)])]
    {
      if id !in accounts {
        return None;
      }
      RecordEffects(ts, amount, "", Event(id, 0, ""));
      Record(id, amount, [Plain(ts, "deposited", amount)]);
      r := Some(accounts[id].balance);
    }

    /** `deposit`: drains, then credits an existing account. */
    method Deposit(ts: int, id: string, amount: int) returns (r: Option<int>)
      requires Valid()
      modifies this
      ensures Valid() && withdrawCount == old(withdrawCount)
      ensures cashbackEvents == DrainSchedule(old(cashbackEvents), ts)
      ensures var d := DrainAccounts(old(accounts), old(cashbackEvents), ts);
        && (r.None? <==> id !in d)
        && (r.None? ==> accounts == d)
        && (r.Some? ==> r == Some(d[id].balance + amount) &&
                        accounts == d[id := Logged(d[id], amount, [Plain(ts, "deposited", amount)])])
    {
      ProcessCashback(ts);
      r := ApplyDeposit(ts, id, amount);
    }

    /** `transfer` after its drain. */
    method ApplyTransfer(ts: int, source: string, target: string, amount: int) returns (r: Option<int>)
      requires Valid()
      modifies this
      ensures Valid() && withdrawCount == old(withdrawCount) && cashbackEvents == old(cashbackEvents)
      ensures r.None? <==> source !in old(accounts) || target !in old(accounts) || source == target ||
                           old(accounts)[source].balance < amount
      ensures r.None? ==> accounts == old(accounts)
      ensures r.Some? ==>
        && r == Some(old(accounts)[source].balance - amount)
        && accounts == Moved(old(accounts), ts, source, target, amount)
    {
      if source !in accounts || target !in accounts || source == target {
        return None;
      }
      if accounts[source].balance < amount {
        return None;
      }
      MovedOk(accounts, ts, source, target, amount, withdrawCount);
      var outgoing := accounts[source];
      accounts := accounts[source := Logged(outgoing, -amount, [Plain(ts, "transferred out", amount)])];
      r := Some(accounts[source].balance);
      var incoming := accounts[target];
      accounts := accounts[target := Logged(incoming, amount, [Plain(ts, "transferred in", amount)])];
    }

    /** `transfer`: drains, then moves `amount` between two distinct
        existing accounts when the source can cover it. */
    method Transfer(ts: int, source: string, target: string, amount: int) returns (r: Option<int>)
      requires Valid()
      modifies this
      ensures Valid() && withdrawCount == old(withdrawCount)
      ensures cashbackEvents == DrainSchedule(old(cashbackEvents), ts)
      ensures var d := DrainAccounts(old(accounts), old(cashbackEvents), ts);
        && (r.None? <==> source !in d || target !in d || source == target || d[source].balance < amount)
        && (r.None? ==> accounts == d)
        && (r.Some? ==> r == Some(d[source].balance - amount) && accounts == Moved(d, ts, source, target, amount))
    {
      ProcessCashback(ts);
      r := ApplyTransfer(ts, source, target, amount);
    }

    /** The inner loop of `top_spenders`. */
    static method SpentBy(log: seq<Txn>) returns (total: int)
      ensures total == Spent(log)
    {
      total := 0;
      var j := 0;
      while j < |log|
        invariant 0 <= j <= |log|
        invariant total == Spent(log[..j])
      {
        assert log[..j + 1] == log[..j] + [log[j]];
        TotalAppend(SpentAmount, log[..j], [log[j]]);
        LogLedger.TotalSingle(SpentAmount, log[j]);
        if log[j].operation == "transferred out" {
          total := total + log[j].amount;
        }
        if log[j].operation == "paid" {
          total := total + log[j].amount;
        }
        if log[j].operation == "withdrawn" {
          total := total + log[j].amount;
        }
        j := j + 1;
      }
      assert log[..j] == log;
    }

    /** The accumulation loop of `top_spenders`. */
    method SpendingTotals() returns (totals: map<string, int>)
      ensures totals == SpendingOf(accounts)
    {
      totals := map[];
      var rest := accounts.Keys;
      while rest != {}
        invariant rest <= accounts.Keys
        invariant totals == map id | id in accounts && id !in rest :: Spent(accounts[id].transactions)
        decreases rest
      {
        var id :| id in rest;
        var total := SpentBy(accounts[id].transactions);
        totals := totals[id := total];
        rest := rest - {id};
      }
    }

    /** `top_spenders`: drains, ranks every account by descending outgoing
        total, ties by ascending id, and keeps `sorted[:n]` after clamping
        `n` to the count, so a negative `n` drops entries from the end. */
    method TopSpenders(ts: int, n: int) returns (r: seq<Ranking.Spender>)
      requires Valid()
      modifies this
      ensures Valid() && withdrawCount == old(withdrawCount)
      ensures cashbackEvents == DrainSchedule(old(cashbackEvents), ts)
      ensures accounts == DrainAccounts(old(accounts), old(cashbackEvents), ts)
      ensures Ranking.IsTopOf(r, SpendingOf(accounts))
      ensures |r| == if n >= 0 then Min(n, |SpendingOf(accounts)|) else Max(0, |SpendingOf(accounts)| + n)
    {
      ProcessCashback(ts);
      var totals := SpendingTotals();
      var ranked := Ranking.RankAll(totals);
      var m := n;
      if |ranked| < m {
        m := |ranked|;
      }
      r := Ranking.PySlicePrefix(ranked, m);
      Ranking.PySliceLength(ranked, m);
      assert r == ranked[..|r|];
      Ranking.PrefixIsTop(ranked, totals, |r|);
    }

    /** `pay` after its drain: debits an existing account that can cover
        `amount`, counts the payment, logs the withdrawal and schedules
        `(amount * 2) // 100` one day later. */
    method ApplyPay(ts: int, id: string, amount: int) returns (r: Option<string>)
      requires Valid()
      modifies this
      ensures Valid()
      ensures r.None? <==> id !in old(accounts) || old(accounts)[id].balance < amount
      ensures r.None? ==>
        accounts == old(accounts) && cashbackEvents == old(cashbackEvents) && withdrawCount == old(withdrawCount)
      ensures r.Some? ==>
        && withdrawCount == old(withdrawCount) + 1
        && r == Some(PaymentId(withdrawCount))
        && Unused(old(accounts), old(cashbackEvents).events, r.value)
        && accounts == old(accounts)[id := Logged(old(accounts)[id], -amount, [WithdrawnRecord(ts, amount, r.value)])]
        && cashbackEvents == Scheduled(old(cashbackEvents), ts + MillisecondsInDay, Event(id, FloorCashback(amount), r.value))
    {
      if id !in accounts {
        return None;
      }
      if accounts[id].balance < amount {
        return None;
      }
      PaidOk(accounts, cashbackEvents, withdrawCount, ts, id, amount);
      var pid := PaymentId(withdrawCount + 1);
      accounts, cashbackEvents, withdrawCount :=
        accounts[id := Logged(accounts[id], -amount, [WithdrawnRecord(ts, amount, pid)])],
        Scheduled(cashbackEvents, ts + MillisecondsInDay, Event(id, FloorCashback(amount), pid)),
        withdrawCount + 1;
      r := Some(pid);
    }

    /** `pay`: drains, then pays. */
    method Pay(ts: int, id: string, amount: int) returns (r: Option<string>)
      requires Valid()
      modifies this
      ensures Valid()
      ensures var d := DrainAccounts(old(accounts), old(cashbackEvents), ts);
        var s := DrainSchedule(old(cashbackEvents), ts);
        && (r.None? <==> id !in d || d[id].balance < amount)
        && (r.None? ==> accounts == d && cashbackEvents == s && withdrawCount == old(withdrawCount))
        && (r.Some? ==>
          && withdrawCount == old(withdrawCount) + 1
          && r == Some(PaymentId(withdrawCount))
          && Unused(d, s.events, r.value)
          && accounts == d[id := Logged(d[id], -amount, [WithdrawnRecord(ts, amount, r.value)])]
          && cashbackEvents == Scheduled(s, ts + MillisecondsInDay, Event(id, FloorCashback(amount), r.value)))
    {
      ProcessCashback(ts);
      r := ApplyPay(ts, id, amount);
    }

    /** The first loop of `get_payment_status`: the time of the first
        "withdrawn" record of `payment`. */
    static method FindWithdrawal(log: seq<Txn>, payment: string) returns (r: Option<int>)
      ensures r.None? <==> !Withdrew(log, payment)
      ensures r.Some? ==> exists i | 0 <= i < |log| ::
        log[i].operation == "withdrawn" && log[i].payment == Some(payment) && log[i].timestamp == r.value
    {
      var i := 0;
      while i < |log|
        invariant 0 <= i <= |log|
        invariant forall j | 0 <= j < i :: !(log[j].operation == "withdrawn" && log[j].payment == Some(payment))
      {
        if log[i].operation == "withdrawn" && log[i].payment == Some(payment) {
          return Some(log[i].timestamp);
        }
        i := i + 1;
      }
      return None;
    }

    /** The cashback loops of `get_payment_status`. */
    static method FindCashback(log: seq<Txn>, payment: string) returns (found: bool)
      ensures found <==> CashbackLogged(log, payment)
    {
      var i := 0;
      while i < |log|
        invariant 0 <= i <= |log|
        invariant forall j | 0 <= j < i :: !(log[j].operation == "cashback" && log[j].payment == Some(payment))
      {
        if log[i].operation == "cashback" && log[i].payment == Some(payment) {
          return true;
        }
        i := i + 1;
      }
      return false;
    }

    /** `get_payment_status`: drains, then looks for the withdrawal and its
        cashback record. When the cashback is overdue it drains once more
        and looks again; that second drain, at the same time, changes
        nothing. */
    method GetPaymentStatus(ts: int, id: string, payment: string) returns (r: Option<PaymentStatus>)
      requires Valid()
      modifies this
      ensures Valid() && withdrawCount == old(withdrawCount)
      ensures cashbackEvents == DrainSchedule(old(cashbackEvents), ts)
      ensures accounts == DrainAccounts(old(accounts), old(cashbackEvents), ts)
      ensures r == if id in accounts then StatusOf(accounts[id].transactions, payment) else None
    {
      ghost var s0 := cashbackEvents;
      ProcessCashback(ts);
      if id !in accounts {
        return None;
      }
      var withdrawTs := FindWithdrawal(accounts[id].transactions, payment);
      if withdrawTs.None? {
        return None;
      }
      var cashbackTime := withdrawTs.value + MillisecondsInDay;
      var found := FindCashback(accounts[id].transactions, payment);
      if found {
        return Some(CashbackReceived);
      }
      if ts >= cashbackTime {
        DrainTwice(accounts, s0, ts);
        ProcessCashback(ts);
        found := FindCashback(accounts[id].transactions, payment);
        if found {
          return Some(CashbackReceived);
        }
      }
      return Some(InProgress);
    }

    /** The per-list loop of `merge_accounts`' event rewrite. */
    static method RetargetList(evs: seq<Event>, from: string, to: string) returns (updated: seq<Event>)
      ensures updated == Retarget(evs, from, to)
    {
      updated := [];
      var j := 0;
      while j < |evs|
        invariant 0 <= j <= |evs|
        invariant updated == Retarget(evs[..j], from, to)
      {
        assert Retarget(evs[..j + 1], from, to) == Retarget(evs[..j], from, to) + Retarget([evs[j]], from, to);
        if evs[j].account == from {
          updated := updated + [Event(to, evs[j].amount, evs[j].payment)];
        } else {
          updated := updated + [evs[j]];
        }
        j := j + 1;
      }
      assert evs[..j] == evs;
    }

    /** `merge_accounts`' rewrite of `cashback_events`: every list is
        rewritten in place, so the keys keep their order. */
    method RetargetEvents(from: string, to: string)
      requires WellFormed(cashbackEvents)
      modifies this
      ensures cashbackEvents == Retargeted(old(cashbackEvents), from, to)
      ensures accounts == old(accounts) && withdrawCount == old(withdrawCount)
    {
      var keys := cashbackEvents.times;
      ghost var e0 := cashbackEvents.events;
      var i := 0;
      while i < |keys|
        invariant 0 <= i <= |keys|
        invariant cashbackEvents.times == keys && cashbackEvents.events.Keys == e0.Keys
        invariant forall t | t in e0 :: cashbackEvents.events[t] == if t in keys[..i] then Retarget(e0[t], from, to) else e0[t]
        invariant accounts == old(accounts) && withdrawCount == old(withdrawCount)
      {
        var t := keys[i];
        assert t !in keys[..i];
        var updated := RetargetList(cashbackEvents.events[t], from, to);
        cashbackEvents := cashbackEvents.(events := cashbackEvents.events[t := updated]);
        assert keys[..i + 1] == keys[..i] + [t];
        i := i + 1;
      }
      assert keys[..i] == keys;
      forall t | t in e0 ensures cashbackEvents.events[t] == Retarget(e0[t], from, to) {
        assert t in keys;
      }
      assert cashbackEvents.events == Retargeted(old(cashbackEvents), from, to).events;
    }

    /** `merge_accounts` after its drain: fails for equal ids or an unknown
        id; otherwise the survivor takes the earlier creation time, the sum
        of the balances and the combined log sorted by time, the merged-away
        account's scheduled cashback is retargeted to the survivor, and the
        merged-away account is deleted. */
    method ApplyMerge(ts: int, id1: string, id2: string) returns (ok: bool)
      requires Valid()
      modifies this
      ensures Valid() && withdrawCount == old(withdrawCount)
      ensures ok <==> id1 != id2 && id1 in old(accounts) && id2 in old(accounts)
      ensures !ok ==> accounts == old(accounts) && cashbackEvents == old(cashbackEvents)
      ensures ok ==>
        && accounts == Absorbed(old(accounts), id1, id2, ts)
        && cashbackEvents == Retargeted(old(cashbackEvents), id2, id1)
    {
      if id1 == id2 {
        return false;
      }
      if id1 !in accounts || id2 !in accounts {
        return false;
      }
      AbsorbedOk(accounts, id1, id2, ts, withdrawCount);
      RetargetedOk(cashbackEvents, id2, id1, withdrawCount);
      var account1 := accounts[id1];
      var account2 := accounts[id2];
      var created := Min(account1.createdAt, account2.createdAt);
      var copies := TagCopies(account2.transactions, ts);
      var log := SortByTime(account1.transactions + copies);
      RetargetEvents(id2, id1);
      accounts := accounts[id1 := Acct(account1.balance + account2.balance, log, created)] - {id2};
      return true;
    }

    /** `merge_accounts`: drains, then merges. */
    method MergeAccounts(ts: int, id1: string, id2: string) returns (ok: bool)
      requires Valid()
      modifies this
      ensures Valid() && withdrawCount == old(withdrawCount)
      ensures var d := DrainAccounts(old(accounts), old(cashbackEvents), ts);
        var s := DrainSchedule(old(cashbackEvents), ts);
        && (ok <==> id1 != id2 && id1 in d && id2 in d)
        && (!ok ==> accounts == d && cashbackEvents == s)
        && (ok ==> accounts == Absorbed(d, id1, id2, ts) && cashbackEvents == Retargeted(s, id2, id1))
    {
      ProcessCashback(ts);
      ok := ApplyMerge(ts, id1, id2);
    }

    /** The existence loop of `get_balance`. */
    static method AnyBy(log: seq<Txn>, timeAt: int) returns (existed: bool)
      ensures existed <==> ExistedBy(log, timeAt)
    {
      existed := false;
      var i := 0;
      while i < |log|
        invariant 0 <= i <= |log|
        invariant forall j | 0 <= j < i :: log[j].timestamp > timeAt
      {
        if log[i].timestamp <= timeAt {
          existed := true;
          break;
        }
        i := i + 1;
      }
    }

    /** The fold of `get_balance`. */
    static method Replay(log: seq<Txn>, timeAt: int) returns (balance: int)
      ensures balance == History(log, timeAt)
    {
      balance := 0;
      var i := 0;
      while i < |log|
        invariant 0 <= i <= |log|
        invariant balance == History(log[..i], timeAt)
      {
        assert log[..i + 1] == log[..i] + [log[i]];
        TotalAppend(AsOfAmount(timeAt), log[..i], [log[i]]);
        LogLedger.TotalSingle(AsOfAmount(timeAt), log[i]);
        var t := log[i];
        if !(t.mergedAt.Some? && timeAt < t.mergedAt.value) && t.timestamp <= timeAt {
          var op := t.operation;
          if op == "deposited" || op == "transferred in" || op == "cashback" {
            balance := balance + t.amount;
          } else if op == "transferred out" || op == "withdrawn" || op == "paid" {
            balance := balance - t.amount;
          }
        }
        i := i + 1;
      }
      assert log[..i] == log;
    }

    /** `get_balance`: drains, then None for an unknown account or one
        with no record by `timeAt`; otherwise its log replayed up to
        `timeAt`, copies from a later merge left out. */
    method GetBalance(ts: int, id: string, timeAt: int) returns (r: Option<int>)
      requires Valid()
      modifies this
      ensures Valid() && withdrawCount == old(withdrawCount)
      ensures cashbackEvents == DrainSchedule(old(cashbackEvents), ts)
      ensures accounts == DrainAccounts(old(accounts), old(cashbackEvents), ts)
      ensures r == if id in accounts then BalanceQuery(accounts[id].transactions, timeAt) else None
    {
      ProcessCashback(ts);
      if id !in accounts {
        return None;
      }
      var log := accounts[id].transactions;
      var existed := AnyBy(log, timeAt);
      if !existed {
        return None;
      }
      var balance := Replay(log, timeAt);
      return Some(balance);
    }
  }
}
