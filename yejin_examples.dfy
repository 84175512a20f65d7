// The demonstration run at the end of Yejin/banking_system_impl.py, replayed
// on the model: each step's answer is the one the demonstration asserts.
//
// Each stage is a method that takes the bank in a named state, performs one
// or two operations and hands the bank on in the next named state. Until
// the last deposit no cashback is due, so every operation's drain finds
// nothing to do: the stages call the operations through wrappers that say
// what an operation does when its drain is idle, and lemmas about the
// bank's own map show that it is and compute the next state.

module YejinExamples {
  import opened Common
  import opened LogLedger
  import opened Yejin

  lemma Distinct12()
    ensures "account1" != "account2"
  {
    assert "account1"[7] != "account2"[7];
  }

  lemma FirstId()
    ensures PaymentId(1) == "payment1"
  {
  }

  lemma TotalTriple(f: Txn -> int, a: Txn, b: Txn, c: Txn)
    ensures Total(f, [a, b, c]) == f(a) + f(b) + f(c)
  {
    assert [a, b, c] == [a, b] + [c];
    TotalAppend(f, [a, b], [c]);
    TotalPair(f, a, b);
    TotalSingle(f, c);
  }

  // ---------------------------------------------------------------------
  // The operations when their drain finds nothing due

  method QuietDeposit(bank: Bank, ts: int, id: string, amount: int) returns (r: Option<int>)
    requires bank.Valid() && DrainAll(bank.accounts, ts) == bank.accounts
    modifies bank
    ensures bank.Valid() && bank.issued == old(bank.issued)
    ensures id !in old(bank.accounts) ==> r == None && bank.accounts == old(bank.accounts)
    ensures id in old(bank.accounts) ==>
      && r == Some(old(bank.accounts)[id].balance + amount)
      && bank.accounts == old(bank.accounts)[id := Extend(old(bank.accounts)[id], amount, [Plain(ts, "deposited", amount)])]
  {
    r := bank.Deposit(ts, id, amount);
  }

  method QuietPay(bank: Bank, ts: int, id: string, amount: int) returns (r: Option<string>)
    requires bank.Valid() && DrainAll(bank.accounts, ts) == bank.accounts
    requires id in bank.accounts && amount <= bank.accounts[id].balance
    modifies bank
    ensures bank.Valid() && bank.issued == old(bank.issued) + 1
    ensures r == Some(PaymentId(bank.issued))
    ensures bank.accounts == old(bank.accounts)[id := Extend(old(bank.accounts)[id], -amount, PayRecords(ts, r.value, amount))]
  {
    r := bank.Pay(ts, id, amount);
  }

  method QuietTransfer(bank: Bank, ts: int, source: string, target: string, amount: int) returns (r: Option<int>)
    requires bank.Valid() && DrainAll(bank.accounts, ts) == bank.accounts
    requires source in bank.accounts && target in bank.accounts && source != target
    requires amount <= bank.accounts[source].balance
    modifies bank
    ensures bank.Valid() && bank.issued == old(bank.issued)
    ensures r == Some(old(bank.accounts)[source].balance - amount)
    ensures bank.accounts == Transferred(old(bank.accounts), ts, source, target, amount)
  {
    r := bank.Transfer(ts, source, target, amount);
  }

  method QuietMerge(bank: Bank, ts: int, id1: string, id2: string) returns (ok: bool)
    requires bank.Valid() && DrainAll(bank.accounts, ts) == bank.accounts
    modifies bank
    ensures bank.Valid() && bank.issued == old(bank.issued)
    ensures ok <==> id1 != id2 && id1 in old(bank.accounts) && id2 in old(bank.accounts)
    ensures !ok ==> bank.accounts == old(bank.accounts)
    ensures ok ==> bank.accounts == old(bank.accounts)[id1 := Absorb(old(bank.accounts)[id1], old(bank.accounts)[id2])] - {id2}
  {
    ok := bank.MergeAccounts(ts, id1, id2);
  }

  method QuietStatus(bank: Bank, ts: int, id: string, payment: string) returns (r: Option<PaymentStatus>)
    requires bank.Valid() && DrainAll(bank.accounts, ts) == bank.accounts
    modifies bank
    ensures bank.Valid() && bank.issued == old(bank.issued) && bank.accounts == old(bank.accounts)
    ensures r == if id in bank.accounts then StatusInLog(bank.accounts[id].transactions, payment) else None
  {
    r := bank.GetPaymentStatus(ts, id, payment);
  }

  // ---------------------------------------------------------------------
  // Example 2: one account, a payment, and its balance read back before
  // and after the cashback's due time without any drain in between.

  function Solo(): map<string, Account>
  {
    map[]["account1" := Account(0, [Created1()])]
  }

  function SoloFunded(): map<string, Account>
  {
    var m := Solo();
    m["account1" := Extend(m["account1"], 1000, [Plain(2, "deposited", 1000)])]
  }

  function SoloPaid(): map<string, Account>
  {
    var m := SoloFunded();
    m["account1" := Extend(m["account1"], -300, PayRecords(3, PaymentId(1), 300))]
  }

  lemma SoloFundedIs(m: map<string, Account>)
    requires m == SoloFunded()
    ensures m == map["account1" := Account(1000, [Created1(), Plain(2, "deposited", 1000)])]
  {
    assert m["account1"].transactions == [Created1(), Plain(2, "deposited", 1000)];
  }

  lemma SoloPaidIs(m: map<string, Account>)
    requires m == SoloPaid()
    ensures m == map["account1" := Account(700, [Created1(), Plain(2, "deposited", 1000)]
                                                + PayRecords(3, "payment1", 300))]
  {
    SoloFundedIs(SoloFunded());
    FirstId();
  }

  lemma SoloFundReady(m: map<string, Account>, ts: int)
    requires m == Solo()
    ensures DrainAll(m, ts) == m
    ensures "account1" in m && m["account1"].balance == 0
  {
    QuietDrain(m, ts);
  }

  /** create_account(1, "account1") succeeds and deposit(2, "account1", 1000)
      answers 1000. */
  method SoloOpen() returns (bank: Bank, ok: bool, r: Option<int>)
    ensures fresh(bank) && bank.Valid() && bank.issued == 0
    ensures ok && r == Some(1000) && bank.accounts == SoloFunded()
  {
    bank := new Bank();
    ok := bank.CreateAccount(1, "account1");
    SoloFundReady(bank.accounts, 2);
    r := QuietDeposit(bank, 2, "account1", 1000);
  }

  lemma SoloPayReady(m: map<string, Account>, ts: int)
    requires m == SoloFunded()
    ensures DrainAll(m, ts) == m
    ensures "account1" in m && m["account1"].balance == 1000
  {
    SoloFundedIs(m);
    QuietDrain(m, ts);
  }

  /** pay(3, "account1", 300) is the first payment: "payment1". */
  method SoloPay(bank: Bank) returns (p: Option<string>)
    requires bank.Valid() && bank.issued == 0 && bank.accounts == SoloFunded()
    modifies bank
    ensures p == Some(PaymentId(1))
    ensures bank.Valid() && bank.accounts == SoloPaid()
  {
    SoloPayReady(bank.accounts, 3);
    p := QuietPay(bank, 3, "account1", 300);
  }

  /** The balance of example 2's log at any time from the payment on:
      700, and 706 once the cashback's timestamp is reached. */
  lemma SoloHistory(m: map<string, Account>, timeAt: int)
    requires m == SoloPaid() && 3 <= timeAt
    ensures "account1" in m
    ensures BalanceQuery(m["account1"].transactions, timeAt) ==
      Some(if timeAt < 3 + MillisecondsInDay then 700 else 706)
  {
    SoloPaidIs(m);
    var log := m["account1"].transactions;
    assert log[0].operation == "created account";
    assert 1 in CreatedTimes(log);
    var f := HistoricAmount(timeAt);
    var before := [Plain(1, "created account", 0), Plain(2, "deposited", 1000)];
    var paid := PayRecords(3, "payment1", 300);
    assert TruncCashback(300) == 6;
    TotalAppend(f, before, paid);
    TotalPair(f, before[0], before[1]);
    TotalPair(f, paid[0], paid[1]);
    assert StartsWith("payment1", "payment");
  }

  /** get_balance at 3, at 2 + DAY and at 3 + DAY answers 700, 700 and 706:
      the cashback counts from its own timestamp, drained or not. */
  method SoloBalances(bank: Bank) returns (b1: Option<int>, b2: Option<int>, b3: Option<int>)
    requires bank.accounts == SoloPaid()
    ensures b1 == Some(700) && b2 == Some(700) && b3 == Some(706)
  {
    SoloHistory(bank.accounts, 3);
    SoloHistory(bank.accounts, 2 + MillisecondsInDay);
    SoloHistory(bank.accounts, 3 + MillisecondsInDay);
    b1 := bank.GetBalance(4, "account1", 3);
    b2 := bank.GetBalance(5 + MillisecondsInDay, "account1", 2 + MillisecondsInDay);
    b3 := bank.GetBalance(6 + MillisecondsInDay, "account1", 3 + MillisecondsInDay);
  }

  /** The whole of example 2. */
  method Example2() returns (p: Option<string>, b1: Option<int>, b2: Option<int>, b3: Option<int>)
    ensures p == Some("payment1") && b1 == Some(700) && b2 == Some(700) && b3 == Some(706)
  {
    var bank, ok, r := SoloOpen();
    p := SoloPay(bank);
    FirstId();
    b1, b2, b3 := SoloBalances(bank);
  }

  // ---------------------------------------------------------------------
  // Example 1: two accounts, a payment, a transfer, a merge and the
  // cashback landing in the survivor.

  function Created1(): Txn { Plain(1, "created account", 0) }
  function Created2(): Txn { Plain(2, "created account", 0) }

  function Log1(): seq<Txn>
  {
    [Created1(), Plain(3, "deposited", 2000), Plain(6, "transferred out", 500)]
  }

  function Log2(): seq<Txn>
  {
    [Created2(), Plain(4, "deposited", 2000)] + PayRecords(5, "payment1", 2000) + [Plain(6, "transferred in", 500)]
  }

  /** The survivor's log after the merge and the deposit at 10. */
  function Log3(): seq<Txn>
  {
    Log1() + Log2() + [Plain(10, "deposited", 100)]
  }

  function Opened(): map<string, Account>
  {
    map["account1" := Account(0, [Created1()]), "account2" := Account(0, [Created2()])]
  }

  function HalfFunded(): map<string, Account>
  {
    var m := Opened();
    m["account1" := Extend(m["account1"], 2000, [Plain(3, "deposited", 2000)])]
  }

  function Funded(): map<string, Account>
  {
    var m := HalfFunded();
    m["account2" := Extend(m["account2"], 2000, [Plain(4, "deposited", 2000)])]
  }

  function AfterPay(): map<string, Account>
  {
    var m := Funded();
    m["account2" := Extend(m["account2"], -2000, PayRecords(5, PaymentId(1), 2000))]
  }

  function AfterTransfer(): map<string, Account>
  {
    Transferred(AfterPay(), 6, "account1", "account2", 500)
  }

  function Merged(): map<string, Account>
  {
    var m := AfterTransfer();
    m["account1" := Absorb(m["account1"], m["account2"])] - {"account2"}
  }

  function ToppedUp(): map<string, Account>
  {
    var m := Merged();
    m["account1" := Extend(m["account1"], 100, [Plain(10, "deposited", 100)])]
  }

  // Each state written out record by record.

  lemma HalfFundedIs(m: map<string, Account>)
    requires m == HalfFunded()
    ensures m == map["account1" := Account(2000, [Created1(), Plain(3, "deposited", 2000)]),
                     "account2" := Account(0, [Created2()])]
  {
    Distinct12();
    assert m["account1"].transactions == [Created1(), Plain(3, "deposited", 2000)];
    assert m.Keys == {"account1", "account2"};
  }

  lemma FundedIs(m: map<string, Account>)
    requires m == Funded()
    ensures m == map["account1" := Account(2000, [Created1(), Plain(3, "deposited", 2000)]),
                     "account2" := Account(2000, [Created2(), Plain(4, "deposited", 2000)])]
  {
    HalfFundedIs(HalfFunded());
    Distinct12();
    assert m["account2"].transactions == [Created2(), Plain(4, "deposited", 2000)];
    assert m.Keys == {"account1", "account2"};
  }

  lemma AfterPayIs(m: map<string, Account>)
    requires m == AfterPay()
    ensures m == map["account1" := Account(2000, [Created1(), Plain(3, "deposited", 2000)]),
                     "account2" := Account(0, [Created2(), Plain(4, "deposited", 2000)] + PayRecords(5, "payment1", 2000))]
  {
    FundedIs(Funded());
    Distinct12();
    FirstId();
  }

  lemma AfterTransferIs(m: map<string, Account>)
    requires m == AfterTransfer()
    ensures m == map["account1" := Account(1500, Log1()), "account2" := Account(500, Log2())]
  {
    AfterPayIs(AfterPay());
    Distinct12();
    assert m["account1"].transactions == Log1();
    assert m["account2"].transactions == Log2();
    assert m.Keys == {"account1", "account2"};
  }

  lemma MergedIs(m: map<string, Account>)
    requires m == Merged()
    ensures m == map["account1" := Account(2000, Log1() + Log2())]
  {
    AfterTransferIs(AfterTransfer());
    Distinct12();
  }

  lemma ToppedUpIs(m: map<string, Account>)
    requires m == ToppedUp()
    ensures m == map["account1" := Account(2100, Log3())]
  {
    MergedIs(Merged());
  }

  lemma AfterPayQuiet(m: map<string, Account>, ts: int)
    requires ts < 5 + MillisecondsInDay && m == AfterPay()
    ensures DrainAll(m, ts) == m
  {
    AfterPayIs(m);
    QuietDrain(m, ts);
  }

  /** No record of `log` is a cashback due at `ts`. */
  predicate NoneDue(log: seq<Txn>, ts: int)
  {
    forall i | 0 <= i < |log| :: !IsDueCashback(log[i], ts)
  }

  lemma NoneDueAppend(a: seq<Txn>, b: seq<Txn>, ts: int)
    requires NoneDue(a, ts) && NoneDue(b, ts)
    ensures NoneDue(a + b, ts)
  {
    forall i | 0 <= i < |a + b| ensures !IsDueCashback((a + b)[i], ts) {
      if i >= |a| {
        assert (a + b)[i] == b[i - |a|];
      }
    }
  }

  lemma Log1Quiet(ts: int)
    ensures NoneDue(Log1(), ts)
  {
    assert "created account"[1] != "cashback"[1];
    assert "deposited"[0] != "cashback"[0];
    assert "transferred out"[0] != "cashback"[0];
  }

  lemma Log2Quiet(ts: int)
    requires ts < 5 + MillisecondsInDay
    ensures NoneDue(Log2(), ts)
  {
    FirstId();
    assert "created account"[1] != "cashback"[1];
    assert "deposited"[0] != "cashback"[0];
    assert "payment1"[0] != "cashback"[0];
    assert "transferred in"[0] != "cashback"[0];
  }

  lemma Log3Quiet(ts: int)
    requires ts < 5 + MillisecondsInDay
    ensures NoneDue(Log3(), ts)
  {
    Log1Quiet(ts);
    Log2Quiet(ts);
    NoneDueAppend(Log1(), Log2(), ts);
    assert "deposited"[0] != "cashback"[0];
    NoneDueAppend(Log1() + Log2(), [Plain(10, "deposited", 100)], ts);
  }

  lemma AfterTransferQuiet(m: map<string, Account>, ts: int)
    requires ts < 5 + MillisecondsInDay && m == AfterTransfer()
    ensures DrainAll(m, ts) == m
  {
    AfterTransferIs(m);
    Log1Quiet(ts);
    Log2Quiet(ts);
    QuietDrain(m, ts);
  }

  lemma MergedQuiet(m: map<string, Account>, ts: int)
    requires ts < 5 + MillisecondsInDay && m == Merged()
    ensures DrainAll(m, ts) == m
  {
    MergedIs(m);
    Log1Quiet(ts);
    Log2Quiet(ts);
    NoneDueAppend(Log1(), Log2(), ts);
    QuietDrain(m, ts);
  }

  lemma ToppedUpQuiet(m: map<string, Account>, ts: int)
    requires ts < 5 + MillisecondsInDay && m == ToppedUp()
    ensures DrainAll(m, ts) == m
  {
    ToppedUpIs(m);
    Log3Quiet(ts);
    QuietDrain(m, ts);
  }

  /** The payment's cashback is not due before 5 + DAY. */
  lemma LateQuiet(m: map<string, Account>, ts: int)
    requires ts < 5 + MillisecondsInDay
    requires m == AfterPay() || m == AfterTransfer() || m == Merged() || m == ToppedUp()
    ensures DrainAll(m, ts) == m
  {
    if m == AfterPay() {
      AfterPayQuiet(m, ts);
    } else if m == AfterTransfer() {
      AfterTransferQuiet(m, ts);
    } else if m == Merged() {
      MergedQuiet(m, ts);
    } else {
      ToppedUpQuiet(m, ts);
    }
  }

  lemma OpenStep()
    ensures "account2" !in map["account1" := Account(0, [Created1()])]
    ensures map["account1" := Account(0, [Created1()])]["account2" := Account(0, [Created2()])] == Opened()
  {
    Distinct12();
  }

  /** create_account for account1 at 1 and account2 at 2 both succeed. */
  method Open() returns (bank: Bank, ok1: bool, ok2: bool)
    ensures fresh(bank) && bank.Valid() && bank.issued == 0
    ensures ok1 && ok2 && bank.accounts == Opened()
  {
    bank := new Bank();
    OpenStep();
    ok1 := bank.CreateAccount(1, "account1");
    ok2 := bank.CreateAccount(2, "account2");
  }

  lemma FundFirstReady(m: map<string, Account>, ts: int)
    requires m == Opened()
    ensures DrainAll(m, ts) == m
    ensures "account1" in m && m["account1"].balance == 0
  {
    QuietDrain(m, ts);
  }

  /** deposit(3, "account1", 2000) answers 2000. */
  method FundFirst(bank: Bank) returns (r: Option<int>)
    requires bank.Valid() && bank.accounts == Opened()
    modifies bank
    ensures r == Some(2000)
    ensures bank.Valid() && bank.issued == old(bank.issued) && bank.accounts == HalfFunded()
  {
    FundFirstReady(bank.accounts, 3);
    r := QuietDeposit(bank, 3, "account1", 2000);
  }

  lemma FundSecondReady(m: map<string, Account>, ts: int)
    requires m == HalfFunded()
    ensures DrainAll(m, ts) == m
    ensures "account2" in m && m["account2"].balance == 0
  {
    HalfFundedIs(m);
    QuietDrain(m, ts);
  }

  /** deposit(4, "account2", 2000) answers 2000. */
  method FundSecond(bank: Bank) returns (r: Option<int>)
    requires bank.Valid() && bank.accounts == HalfFunded()
    modifies bank
    ensures r == Some(2000)
    ensures bank.Valid() && bank.issued == old(bank.issued) && bank.accounts == Funded()
  {
    FundSecondReady(bank.accounts, 4);
    r := QuietDeposit(bank, 4, "account2", 2000);
  }

  lemma PayReady(m: map<string, Account>, ts: int)
    requires m == Funded()
    ensures DrainAll(m, ts) == m
    ensures "account2" in m && m["account2"].balance == 2000
  {
    FundedIs(m);
    QuietDrain(m, ts);
  }

  /** pay(5, "account2", 2000) is the first payment: "payment1". */
  method FirstPayment(bank: Bank) returns (p: Option<string>)
    requires bank.Valid() && bank.issued == 0 && bank.accounts == Funded()
    modifies bank
    ensures p == Some(PaymentId(1))
    ensures bank.Valid() && bank.accounts == AfterPay()
  {
    PayReady(bank.accounts, 5);
    p := QuietPay(bank, 5, "account2", 2000);
  }

  lemma TransferReady(m: map<string, Account>)
    requires m == AfterPay()
    ensures "account1" in m && "account2" in m && "account1" != "account2"
    ensures m["account1"].balance == 2000
  {
    AfterPayIs(m);
    Distinct12();
  }

  /** transfer(6, "account1", "account2", 500) leaves account1 with 1500. */
  method FirstTransfer(bank: Bank) returns (r: Option<int>)
    requires bank.Valid() && bank.accounts == AfterPay()
    modifies bank
    ensures r == Some(1500)
    ensures bank.Valid() && bank.accounts == AfterTransfer()
  {
    TransferReady(bank.accounts);
    LateQuiet(bank.accounts, 6);
    r := QuietTransfer(bank, 6, "account1", "account2", 500);
  }

  lemma MissingId(m: map<string, Account>)
    requires m == AfterTransfer()
    ensures "account1" in m && "non-existing" !in m
  {
    AfterTransferIs(m);
    assert "non-existing"[0] != "account1"[0] && "non-existing"[0] != "account2"[0];
  }

  /** Merging into a missing account or into itself fails and changes
      nothing. */
  method FailedMerges(bank: Bank) returns (ok7: bool, ok8: bool)
    requires bank.Valid() && bank.accounts == AfterTransfer()
    modifies bank
    ensures !ok7 && !ok8
    ensures bank.Valid() && bank.accounts == AfterTransfer()
  {
    MissingId(bank.accounts);
    LateQuiet(bank.accounts, 7);
    ok7 := QuietMerge(bank, 7, "account1", "non-existing");
    LateQuiet(bank.accounts, 8);
    ok8 := QuietMerge(bank, 8, "account1", "account1");
  }

  lemma MergeReady(m: map<string, Account>)
    requires m == AfterTransfer()
    ensures "account1" in m && "account2" in m && "account1" != "account2"
  {
    AfterTransferIs(m);
    Distinct12();
  }

  /** merge_accounts(9, "account1", "account2") succeeds. */
  method Merge(bank: Bank) returns (ok: bool)
    requires bank.Valid() && bank.accounts == AfterTransfer()
    modifies bank
    ensures ok
    ensures bank.Valid() && bank.accounts == Merged()
  {
    MergeReady(bank.accounts);
    LateQuiet(bank.accounts, 9);
    ok := QuietMerge(bank, 9, "account1", "account2");
  }

  lemma TopUpReady(m: map<string, Account>)
    requires m == Merged()
    ensures "account1" in m && m["account1"].balance == 2000
  {
    MergedIs(m);
  }

  /** deposit(10, "account1", 100) answers 2100. */
  method TopUp(bank: Bank) returns (r: Option<int>)
    requires bank.Valid() && bank.accounts == Merged()
    modifies bank
    ensures r == Some(2100)
    ensures bank.Valid() && bank.accounts == ToppedUp()
  {
    TopUpReady(bank.accounts);
    LateQuiet(bank.accounts, 10);
    r := QuietDeposit(bank, 10, "account1", 100);
  }

  /** The cashback record of payment1 now sits in the survivor's log,
      still undeposited, and the donor id is gone. */
  lemma GoneStep(m: map<string, Account>)
    requires m == ToppedUp()
    ensures "account2" !in m && "account1" in m
    ensures StatusInLog(m["account1"].transactions, "payment1") == Some(InProgress)
  {
    ToppedUpIs(m);
    Log3Pending();
  }

  lemma Log3Pending()
    ensures StatusInLog(Log3(), "payment1") == Some(InProgress)
  {
    var log := Log3();
    assert log[5] == Plain(5, "payment1", 2000);
    assert log[6] == PendingCashback(5 + MillisecondsInDay, 40, "payment1");
    assert FirstCashbackFor(log, "payment1") == Some(6);
  }

  /** After the merge the donor id is gone: deposit(11, "account2", 100)
      and get_payment_status(12, "account2", "payment1") answer None, and
      the survivor reports payment1 as still in progress at 13. */
  method AfterMerge(bank: Bank) returns (r11: Option<int>, s12: Option<PaymentStatus>, s13: Option<PaymentStatus>)
    requires bank.Valid() && bank.accounts == ToppedUp()
    modifies bank
    ensures r11 == None && s12 == None && s13 == Some(InProgress)
    ensures bank.Valid() && bank.accounts == ToppedUp()
  {
    GoneStep(bank.accounts);
    LateQuiet(bank.accounts, 11);
    r11 := QuietDeposit(bank, 11, "account2", 100);
    LateQuiet(bank.accounts, 12);
    s12 := QuietStatus(bank, 12, "account2", "payment1");
    LateQuiet(bank.accounts, 13);
    s13 := QuietStatus(bank, 13, "account1", "payment1");
  }

  /** The sum of any per-record effect over the survivor's log. */
  lemma TotalLog3(f: Txn -> int)
    ensures Total(f, Log3()) ==
      f(Created1()) + f(Plain(3, "deposited", 2000)) + f(Plain(6, "transferred out", 500))
      + f(Created2()) + f(Plain(4, "deposited", 2000))
      + f(Plain(5, "payment1", 2000)) + f(PendingCashback(5 + MillisecondsInDay, 40, "payment1"))
      + f(Plain(6, "transferred in", 500)) + f(Plain(10, "deposited", 100))
  {
    var head := [Created2(), Plain(4, "deposited", 2000)];
    var paid := PayRecords(5, "payment1", 2000);
    var tail := [Plain(6, "transferred in", 500)];
    TotalAppend(f, Log1() + Log2(), [Plain(10, "deposited", 100)]);
    TotalAppend(f, Log1(), Log2());
    TotalTriple(f, Created1(), Plain(3, "deposited", 2000), Plain(6, "transferred out", 500));
    TotalAppend(f, head + paid, tail);
    TotalAppend(f, head, paid);
    TotalPair(f, head[0], head[1]);
    TotalPair(f, paid[0], paid[1]);
    TotalSingle(f, tail[0]);
    TotalSingle(f, Plain(10, "deposited", 100));
  }

  lemma HistoryFacts(m: map<string, Account>)
    requires m == ToppedUp()
    ensures "account1" in m && "account2" !in m
    ensures BalanceQuery(m["account1"].transactions, 11) == Some(2100)
  {
    ToppedUpIs(m);
    Distinct12();
    var log := Log3();
    assert log[0] == Created1();
    assert 1 in CreatedTimes(log);
    TotalLog3(HistoricAmount(11));
    assert StartsWith("payment1", "payment");
    assert "created account"[0] != "payment"[0] && !StartsWith("created account", "payment");
    assert "transferred out"[0] != "payment"[0] && !StartsWith("transferred out", "payment");
  }

  /** get_balance(14, "account2", 1) and get_balance(15, "account2", 9)
      answer None (the donor id is gone), and get_balance(16, "account1", 11)
      answers 2100: the donor's records count in the survivor's history. */
  method Balances(bank: Bank) returns (b14: Option<int>, b15: Option<int>, b16: Option<int>)
    requires bank.accounts == ToppedUp()
    ensures b14 == None && b15 == None && b16 == Some(2100)
  {
    HistoryFacts(bank.accounts);
    b14 := bank.GetBalance(14, "account2", 1);
    b15 := bank.GetBalance(15, "account2", 9);
    b16 := bank.GetBalance(16, "account1", 11);
  }

  lemma LateFacts(m: map<string, Account>)
    requires m == ToppedUp()
    ensures var d := DrainAll(m, 5 + MillisecondsInDay);
      "account1" in d && d["account1"].balance == 2140
  {
    ToppedUpIs(m);
    TotalLog3(DueAmount(5 + MillisecondsInDay));
  }

  /** deposit(5 + DAY, "account1", 100) answers 2240: the drain first
      credits the 40 of cashback the survivor inherited. */
  method LateDeposit(bank: Bank) returns (r: Option<int>)
    requires bank.Valid() && bank.accounts == ToppedUp()
    modifies bank
    ensures r == Some(2240)
    ensures bank.Valid()
  {
    LateFacts(bank.accounts);
    r := bank.Deposit(5 + MillisecondsInDay, "account1", 100);
  }

  /** The whole of example 1, stage after stage. */
  method Example1() returns (p: Option<string>, r6: Option<int>, r10: Option<int>,
                             s13: Option<PaymentStatus>, b16: Option<int>, r: Option<int>)
    ensures p == Some("payment1") && r6 == Some(1500) && r10 == Some(2100)
    ensures s13 == Some(InProgress) && b16 == Some(2100) && r == Some(2240)
  {
    var bank, ok1, ok2 := Open();
    var r3 := FundFirst(bank);
    var r4 := FundSecond(bank);
    p := FirstPayment(bank);
    FirstId();
    r6 := FirstTransfer(bank);
    var ok7, ok8 := FailedMerges(bank);
    var ok9 := Merge(bank);
    r10 := TopUp(bank);
    var r11, s12;
    r11, s12, s13 := AfterMerge(bank);
    var b14, b15;
    b14, b15, b16 := Balances(bank);
    r := LateDeposit(bank);
  }
}
