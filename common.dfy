// Shared vocabulary of the five ledger variants: optional values, payment
// status, the one-day cashback delay, the 2% cashback arithmetic, decimal
// payment identifiers, transaction records and sums over a log.

module Common {

  datatype Option<+T> = None | Some(value: T)

  /** The two strings a payment status query can return:
      "IN_PROGRESS" and "CASHBACK_RECEIVED". */
  datatype PaymentStatus = InProgress | CashbackReceived

  /** 24 * 60 * 60 * 1000: cashback lands this long after the payment. */
  const MillisecondsInDay: int := 86400000

  function Max(a: int, b: int): int { if a < b then b else a }
  function Min(a: int, b: int): int { if a < b then a else b }

  /** `(amount * 2) // 100`. Python's `//` floors; Dafny's `/` is Euclidean,
      and the two agree for a positive divisor, so this is exact for every
      integer: the result is 2% of `amount` rounded down. */
  function FloorCashback(amount: int): (r: int)
    ensures 50 * r <= amount < 50 * r + 50
  {
    amount * 2 / 100
  }

  /** `int(amount * 0.02)`: 2% of `amount` truncated toward zero. The
      rounding of the floating-point product is not modelled. */
  function TruncCashback(amount: int): (r: int)
    ensures 0 <= amount ==> 0 <= 50 * r <= amount < 50 * r + 50
    ensures amount < 0 ==> 50 * r - 50 < amount <= 50 * r <= 0
  {
    if amount >= 0 then amount * 2 / 100 else -((-amount) * 2 / 100)
  }

  // ---------------------------------------------------------------------
  // Decimal rendering of counters, as in f"payment{k}"

  function DigitChar(d: int): char
    requires 0 <= d < 10
  {
    (48 + d) as char
  }

  function DigitValue(c: char): int
  {
    c as int - 48
  }

  /** `str(n)` for a natural number. */
  function Decimal(n: nat): (s: string)
    ensures |s| >= 1
    ensures forall i | 0 <= i < |s| :: '0' <= s[i] <= '9'
  {
    if n < 10 then [DigitChar(n)] else Decimal(n / 10) + [DigitChar(n % 10)]
  }

  /** `int(s)` for a string of decimal digits. */
  function ParseDecimal(s: string): int
  {
    if s == [] then 0 else ParseDecimal(s[..|s| - 1]) * 10 + DigitValue(s[|s| - 1])
  }

  lemma {:induction false} DecimalRoundTrip(n: nat)
    ensures ParseDecimal(Decimal(n)) == n
  {
    if n >= 10 {
      var s := Decimal(n);
      assert s[..|s| - 1] == Decimal(n / 10);
      DecimalRoundTrip(n / 10);
    }
  }

  /** The payment identifier `"payment" + str(k)`. */
  function PaymentId(k: nat): string
  {
    "payment" + Decimal(k)
  }

  /** Distinct counters give distinct payment identifiers. */
  lemma PaymentIdInjective(a: nat, b: nat)
    ensures PaymentId(a) == PaymentId(b) <==> a == b
  {
    if PaymentId(a) == PaymentId(b) {
      assert PaymentId(a)[7..] == Decimal(a);
      assert PaymentId(b)[7..] == Decimal(b);
      DecimalRoundTrip(a);
      DecimalRoundTrip(b);
    }
  }

  /** `s` is one of `"payment1"` … `"payment<issued>"`. */
  predicate IssuedName(s: string, issued: int)
  {
    exists k: nat | 1 <= k <= issued :: s == PaymentId(k)
  }

  lemma IssuedNameOf(k: nat, issued: int)
    requires 1 <= k <= issued
    ensures IssuedName(PaymentId(k), issued)
  {
  }

  /** The next identifier differs from every one issued so far. */
  lemma FreshName(s: string, issued: nat)
    requires IssuedName(s, issued)
    ensures s != PaymentId(issued + 1)
  {
    var k: nat :| 1 <= k <= issued && s == PaymentId(k);
    PaymentIdInjective(k, issued + 1);
  }

  /** Python's `s.startswith(prefix)`. */
  predicate StartsWith(s: string, prefix: string)
  {
    prefix <= s
  }

  /** A string whose first letter is not 'p' is no payment name. */
  lemma NotPaymentName(s: string)
    requires s != [] && s[0] != 'p'
    ensures !StartsWith(s, "payment")
  {
    assert "payment"[0] == 'p';
  }

  lemma PaymentIdIsPayment(k: nat)
    ensures StartsWith(PaymentId(k), "payment")
  {
  }

  // ---------------------------------------------------------------------
  // Transaction records

  /** One entry of an account's transaction list. Every variant stores a
      dict with "timestamp", "operation" and "amount"; `payment` is the
      optional payment reference ("payment_id", "payment" or
      "related_payment" depending on the variant), `deposited` the flag on a
      cashback record (false where a variant has no flag), and `mergedAt` the
      optional "merged_at" tag set when a record is copied by a merge. */
  datatype Txn = Txn(timestamp: int, operation: string, amount: int,
                     payment: Option<string>, deposited: bool, mergedAt: Option<int>)

  /** A record with only the three common keys. */
  function Plain(timestamp: int, operation: string, amount: int): Txn
  {
    Txn(timestamp, operation, amount, None, false, None)
  }

  /** An undeposited "cashback" record referring to `ref`. */
  function PendingCashback(timestamp: int, amount: int, ref: string): Txn
  {
    Txn(timestamp, "cashback", amount, Some(ref), false, None)
  }

  /** A merged-away account's records as the survivor receives them:
      copies tagged with the merge time (any older tag is overwritten). */
  function Tagged(log: seq<Txn>, ts: int): seq<Txn>
  {
    seq(|log|, i requires 0 <= i < |log| => log[i].(mergedAt := Some(ts)))
  }

  /** The copy loop of a merge: each record of the merged-away account,
      copied and tagged, in order. */
  method TagCopies(log: seq<Txn>, ts: int) returns (copies: seq<Txn>)
    ensures copies == Tagged(log, ts)
  {
    copies := [];
    var i := 0;
    while i < |log|
      invariant 0 <= i <= |log|
      invariant copies == Tagged(log[..i], ts)
    {
      assert Tagged(log[..i + 1], ts) == Tagged(log[..i], ts) + [log[i].(mergedAt := Some(ts))];
      copies := copies + [log[i].(mergedAt := Some(ts))];
      i := i + 1;
    }
    assert log[..i] == log;
  }

  /** Sum of `f` over a log, accumulated front to back as the source's loops do. */
  function Total(f: Txn -> int, log: seq<Txn>): int
  {
    if log == [] then 0 else Total(f, log[..|log| - 1]) + f(log[|log| - 1])
  }

  lemma {:induction false} TotalAppend(f: Txn -> int, a: seq<Txn>, b: seq<Txn>)
    ensures Total(f, a + b) == Total(f, a) + Total(f, b)
  {
    if b == [] {
      assert a + b == a;
    } else {
      assert (a + b)[..|a + b| - 1] == a + b[..|b| - 1];
      TotalAppend(f, a, b[..|b| - 1]);
    }
  }

  /** Sums agree on logs whose records agree under `f` and `g` pointwise. */
  lemma {:induction false} TotalPointwise(f: Txn -> int, g: Txn -> int, a: seq<Txn>, b: seq<Txn>)
    requires |a| == |b|
    requires forall i | 0 <= i < |a| :: f(a[i]) == g(b[i])
    ensures Total(f, a) == Total(g, b)
  {
    if a != [] {
      TotalPointwise(f, g, a[..|a| - 1], b[..|b| - 1]);
    }
  }

  /** The sum of two per-record effects sums to the sum of the two totals. */
  lemma {:induction false} TotalLinear(f: Txn -> int, g: Txn -> int, h: Txn -> int, log: seq<Txn>)
    requires forall i | 0 <= i < |log| :: h(log[i]) == f(log[i]) + g(log[i])
    ensures Total(h, log) == Total(f, log) + Total(g, log)
  {
    if log != [] {
      TotalLinear(f, g, h, log[..|log| - 1]);
    }
  }

  // ---------------------------------------------------------------------
  // Insertion-ordered key lists (Python dicts iterate in insertion order)

  predicate Distinct<T(==)>(s: seq<T>)
  {
    forall i, j | 0 <= i < j < |s| :: s[i] != s[j]
  }

  /** The key list after `del d[x]`. */
  function Remove<T(==,!new)>(s: seq<T>, x: T): (r: seq<T>)
    requires Distinct(s)
    ensures Distinct(r)
    ensures forall y :: y in r <==> y in s && y != x
    ensures |r| == if x in s then |s| - 1 else |s|
  {
    if s == [] then []
    else if s[0] == x then s[1..]
    else
      var rest := Remove(s[1..], x);
      assert s[0] !in s[1..] by {
        forall j | 0 <= j < |s[1..]| ensures s[1..][j] != s[0] { assert s[j + 1] != s[0]; }
      }
      [s[0]] + rest
  }
}
