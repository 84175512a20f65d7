// Yejin/banking_system.py: the `BankingSystem` base class. Its default
// `create_account`, `deposit` and `transfer` keep an accounts dict of
// {"balance", "transactions"} with no cashback drain; the other operations
// are documented there and implemented by the variants.

module YejinInterface {
  import opened Common
  import opened LogLedger
  import Ranking

  /** An account as the default operations leave it: the balance is the
      log's account of it and the log holds no payment or cashback record. */
  predicate Plainly(a: Account)
  {
    AccountOk(a, 0)
  }

  /** The record `deposit` logs counts its amount. */
  lemma DepositRecord(ts: int, amount: int)
    ensures LiveBalance([Plain(ts, "deposited", amount)]) == amount
    ensures LogNamed([Plain(ts, "deposited", amount)], 0)
  {
    PlainRecord(ts, "deposited", amount, 0);
  }

  /** Both sides of a default transfer stay plain accounts. */
  lemma TransferPlain(m: map<string, Account>, ts: int, source: string, target: string, amount: int)
    requires source in m && target in m && source != target
    requires forall id | id in m :: Plainly(m[id])
    ensures var r := Transferred(m, ts, source, target, amount);
      forall id | id in r :: Plainly(r[id])
  {
    PlainRecord(ts, "transferred out", amount, 0);
    PlainRecord(ts, "transferred in", amount, 0);
    assert Plainly(m[source]) && Plainly(m[target]);
    ExtendOk(m[source], -amount, [Plain(ts, "transferred out", amount)], 0, 0);
    ExtendOk(m[target], amount, [Plain(ts, "transferred in", amount)], 0, 0);
  }

  class BankingSystem {
    /** `self.accounts`. */
    var accounts: map<string, Account>

    ghost predicate Valid()
      reads this
    {
      forall id | id in accounts :: Plainly(accounts[id])
    }

    /** `__init__`: no accounts. */
    constructor ()
      ensures Valid() && accounts == map[]
    {
      accounts := map[];
    }

    /** Default `create_account`: fails iff the id exists; otherwise a new
        account with balance 0 and its "created account" record. */
    method CreateAccount(ts: int, id: string) returns (ok: bool)
      requires Valid()
      modifies this
      ensures Valid()
      ensures ok <==> id !in old(accounts)
      ensures ok ==> accounts == old(accounts)[id := Account(0, [Plain(ts, "created account", 0)])]
      ensures !ok ==> accounts == old(accounts)
    {
      if id in accounts {
        return false;
      }
      PlainRecord(ts, "created account", 0, 0);
      accounts := accounts[id := Account(0, [Plain(ts, "created account", 0)])];
      return true;
    }

    /** Default `deposit`: credits an existing account and returns its new
        balance; None for an unknown id. */
    method Deposit(ts: int, id: string, amount: int) returns (r: Option<int>)
      requires Valid()
      modifies this
      ensures Valid()
      ensures r.None? <==> id !in old(accounts)
      ensures r.None? ==> accounts == old(accounts)
      ensures r.Some? ==>
        && r == Some(old(accounts)[id].balance + amount)
        && accounts == old(accounts)[id := Extend(old(accounts)[id], amount, [Plain(ts, "deposited", amount)])]
    {
      if id !in accounts {
        return None;
      }
      var info := accounts[id];
      DepositRecord(ts, amount);
      ExtendOk(info, amount, [Plain(ts, "deposited", amount)], 0, 0);
      accounts := accounts[id := Extend(info, amount, [Plain(ts, "deposited", amount)])];
      r := Some(accounts[id].balance);
    }

    /** Default `transfer`: None for an unknown id, for equal ids or when
        the source cannot cover `amount`; otherwise moves `amount` and
        returns the source's new balance. */
    method Transfer(ts: int, source: string, target: string, amount: int) returns (r: Option<int>)
      requires Valid()
      modifies this
      ensures Valid()
      ensures r.None? <==> source !in old(accounts) || target !in old(accounts) || source == target ||
                           old(accounts)[source].balance < amount
      ensures r.None? ==> accounts == old(accounts)
      ensures r.Some? ==>
        && r == Some(old(accounts)[source].balance - amount)
        && accounts == Transferred(old(accounts), ts, source, target, amount)
    {
      if source !in accounts || target !in accounts {
        return None;
      }
      if source == target {
        return None;
      }
      if accounts[source].balance < amount {
        return None;
      }
      TransferPlain(accounts, ts, source, target, amount);
      ghost var before := accounts;
      var src := accounts[source];
      accounts := accounts[source := Extend(src, -amount, [Plain(ts, "transferred out", amount)])];
      var dst := accounts[target];
      accounts := accounts[target := Extend(dst, amount, [Plain(ts, "transferred in", amount)])];
      r := Some(accounts[source].balance);
      assert accounts == Transferred(before, ts, source, target, amount);
    }
  }

  // ---------------------------------------------------------------------
  // The documented contracts of the operations the base class leaves to
  // the variants, stated about the model's definitions.

  /** Cashback is not outgoing money: a cashback record, deposited or not,
      adds nothing to an account's `top_spenders` total. */
  lemma CashbackIsNotSpending(log: seq<Txn>, t: Txn)
    requires t.operation == "cashback"
    ensures Outgoing(log + [t]) == Outgoing(log)
  {
    NotPaymentName("cashback");
    TotalAppend(OutgoingAmount, log, [t]);
    TotalSingle(OutgoingAmount, t);
  }

  /** Fewer than `n` accounts: a top list of length `min(n, count)` holds
      every account. */
  lemma AllWhenFewer(r: seq<Ranking.Spender>, totals: map<string, int>, n: int)
    requires Ranking.IsTopOf(r, totals) && |totals| <= n && |r| == Min(n, |totals|)
    ensures forall id | id in totals :: (id, totals[id]) in r
  {
    var ids := set i | 0 <= i < |r| :: r[i].0;
    assert ids <= totals.Keys;
    assert |ids| == |r| by {
      TopIdsDistinct(r, totals);
      DistinctImage(r);
    }
    forall id | id in totals ensures (id, totals[id]) in r {
      if id !in ids {
        var others := totals.Keys - {id};
        assert ids <= others;
        SubsetSize(ids, others);
        assert false;
      }
      var i :| 0 <= i < |r| && r[i].0 == id;
    }
  }

  /** A top list names each account once: equal ids would carry equal
      totals, and no id outranks itself. */
  lemma TopIdsDistinct(r: seq<Ranking.Spender>, totals: map<string, int>)
    requires Ranking.IsTopOf(r, totals)
    ensures Ranking.DistinctIds(r)
  {
    forall i, j | 0 <= i < j < |r| ensures r[i].0 != r[j].0 {
      if r[i].0 == r[j].0 {
        assert Ranking.Outranks(r[i], r[j]);
        Ranking.StrLessIrreflexive(r[i].0);
      }
    }
  }

  lemma {:induction false} SubsetSize<T>(a: set<T>, b: set<T>)
    requires a <= b
    ensures |a| <= |b|
    decreases b
  {
    if a != {} {
      var x :| x in a;
      SubsetSize(a - {x}, b - {x});
    }
  }

  lemma {:induction false} DistinctImage(r: seq<Ranking.Spender>)
    requires Ranking.DistinctIds(r)
    ensures |set i | 0 <= i < |r| :: r[i].0| == |r|
  {
    if r != [] {
      var init := r[..|r| - 1];
      DistinctImage(init);
      var last := r[|r| - 1].0;
      assert (set i | 0 <= i < |r| :: r[i].0) == (set i | 0 <= i < |init| :: init[i].0) + {last};
      assert last !in (set i | 0 <= i < |init| :: init[i].0);
    }
  }
}
