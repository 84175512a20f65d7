// DaQuawn/banking_system_impl.py: levels 1 to 3 of the ledger. Its code is
// Yejin/banking_system_impl.py's levels 1 to 3 statement for statement; the
// one textual difference, the cashback record's key for its payment
// ('payment' here, 'payment_id' there), is the `payment` field of the
// model's record in both. The class below therefore runs every operation on
// a `Yejin.Bank` it owns, and adds what holds of this variant alone: with
// no merge, an account once created is never removed.

module DaQuawn {
  import opened Common
  import opened LogLedger
  import Ranking
  import Yejin

  class BankingSystem {
    /** `whole_accounts`, with its key order and the payments issued. */
    const whole: Yejin.Bank

    ghost predicate Valid()
      reads this, whole
    {
      whole.Valid()
    }

    constructor ()
      ensures Valid() && fresh(whole)
      ensures whole.ids == [] && whole.accounts == map[] && whole.issued == 0
    {
      whole := new Yejin.Bank();
    }

    /** `_process_cashbacks`: flags and credits every due cashback record
        exactly once. */
    method ProcessCashbacks(ts: int)
      requires Valid()
      modifies whole
      ensures Valid() && whole.ids == old(whole.ids) && whole.issued == old(whole.issued)
      ensures whole.accounts == DrainAll(old(whole.accounts), ts)
    {
      whole.ProcessCashbacks(ts);
    }

    /** `create_account` (no drain): fails iff the id exists. */
    method CreateAccount(ts: int, id: string) returns (ok: bool)
      requires Valid()
      modifies whole
      ensures Valid() && whole.issued == old(whole.issued)
      ensures old(whole.accounts).Keys <= whole.accounts.Keys
      ensures ok <==> id !in old(whole.accounts)
      ensures ok ==> whole.accounts == old(whole.accounts)[id := Account(0, [Plain(ts, "created account", 0)])]
      ensures !ok ==> whole.accounts == old(whole.accounts)
    {
      ok := whole.CreateAccount(ts, id);
    }

    /** `deposit`: drains, then credits an existing account. */
    method Deposit(ts: int, id: string, amount: int) returns (r: Option<int>)
      requires Valid()
      modifies whole
      ensures Valid() && whole.issued == old(whole.issued)
      ensures whole.accounts.Keys == old(whole.accounts).Keys
      ensures var d := DrainAll(old(whole.accounts), ts);
        && (r.None? <==> id !in d)
        && (r.None? ==> whole.accounts == d)
        && (r.Some? ==> r == Some(d[id].balance + amount) &&
                        whole.accounts == d[id := Extend(d[id], amount, [Plain(ts, "deposited", amount)])])
    {
      r := whole.Deposit(ts, id, amount);
    }

    /** `transfer`: drains, then moves `amount` between two distinct
        existing accounts when the source can cover it. */
    method Transfer(ts: int, source: string, target: string, amount: int) returns (r: Option<int>)
      requires Valid()
      modifies whole
      ensures Valid() && whole.issued == old(whole.issued)
      ensures whole.accounts.Keys == old(whole.accounts).Keys
      ensures var d := DrainAll(old(whole.accounts), ts);
        && (r.None? <==> source !in d || target !in d || source == target || d[source].balance < amount)
        && (r.None? ==> whole.accounts == d)
        && (r.Some? ==> r == Some(d[source].balance - amount) &&
                        whole.accounts == Transferred(d, ts, source, target, amount))
    {
      r := whole.Transfer(ts, source, target, amount);
    }

    /** `top_spenders`: drains, then ranks every account by its outgoing
        total and keeps Python's `[:n]` of the ranking. */
    method TopSpenders(ts: int, n: int) returns (r: seq<Ranking.Spender>)
      requires Valid()
      modifies whole
      ensures Valid() && whole.issued == old(whole.issued)
      ensures whole.accounts == DrainAll(old(whole.accounts), ts)
      ensures Ranking.IsTopOf(r, Spending(whole.accounts))
      ensures |r| == if n >= 0 then Min(n, |whole.accounts|) else Max(0, |whole.accounts| + n)
    {
      r := whole.TopSpenders(ts, n);
    }

    /** `pay`: drains, then withdraws and logs the payment under the next
        global ordinal with its undeposited cashback due a day later. */
    method Pay(ts: int, id: string, amount: int) returns (r: Option<string>)
      requires Valid()
      modifies whole
      ensures Valid()
      ensures whole.accounts.Keys == old(whole.accounts).Keys
      ensures var d := DrainAll(old(whole.accounts), ts);
        && (r.None? <==> id !in d || d[id].balance < amount)
        && (r.None? ==> whole.accounts == d && whole.issued == old(whole.issued))
        && (r.Some? ==>
          && whole.issued == old(whole.issued) + 1
          && r == Some(PaymentId(whole.issued))
          && (forall x | x in d :: !Mentions(d[x].transactions, r.value))
          && whole.accounts == d[id := Extend(d[id], -amount, PayRecords(ts, r.value, amount))])
    {
      r := whole.Pay(ts, id, amount);
    }

    /** `get_payment_status`: drains, then reads the account's log. */
    method GetPaymentStatus(ts: int, id: string, payment: string) returns (r: Option<PaymentStatus>)
      requires Valid()
      modifies whole
      ensures Valid() && whole.issued == old(whole.issued)
      ensures whole.accounts == DrainAll(old(whole.accounts), ts)
      ensures r == if id in whole.accounts then StatusInLog(whole.accounts[id].transactions, payment) else None
    {
      r := whole.GetPaymentStatus(ts, id, payment);
    }
  }
}
