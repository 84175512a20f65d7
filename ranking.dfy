// The ranking behind every `top_spenders`: accounts ordered by descending
// outgoing total, ties broken by ascending account id (Python's string
// order), then cut to the first `n` entries.

module Ranking {
  import opened Common

  /** An (account id, outgoing total) pair, before it is rendered as "id(total)". */
  type Spender = (string, int)

  /** Python's `a < b` on strings: lexicographic by code point. */
  predicate StrLess(a: string, b: string)
  {
    if |a| == 0 then |b| > 0
    else if |b| == 0 then false
    else if a[0] == b[0] then StrLess(a[1..], b[1..])
    else a[0] < b[0]
  }

  lemma {:induction false} StrLessIrreflexive(a: string)
    ensures !StrLess(a, a)
  {
    if |a| > 0 {
      StrLessIrreflexive(a[1..]);
    }
  }

  lemma {:induction false} StrLessTransitive(a: string, b: string, c: string)
    requires StrLess(a, b) && StrLess(b, c)
    ensures StrLess(a, c)
  {
    if |a| > 0 && a[0] == b[0] && b[0] == c[0] {
      StrLessTransitive(a[1..], b[1..], c[1..]);
    }
  }

  /** Python's string order is total: distinct strings are comparable. */
  lemma {:induction false} StrLessTotal(a: string, b: string)
    requires a != b
    ensures StrLess(a, b) || StrLess(b, a)
  {
    if |a| > 0 && |b| > 0 && a[0] == b[0] {
      assert a == [a[0]] + a[1..] && b == [b[0]] + b[1..];
      StrLessTotal(a[1..], b[1..]);
    }
  }

  /** `a` sorts before `b` under the key `(-total, id)`. */
  predicate Outranks(a: Spender, b: Spender)
  {
    a.1 > b.1 || (a.1 == b.1 && StrLess(a.0, b.0))
  }

  lemma OutranksTransitive(a: Spender, b: Spender, c: Spender)
    requires Outranks(a, b) && Outranks(b, c)
    ensures Outranks(a, c)
  {
    if a.1 == b.1 && b.1 == c.1 {
      StrLessTransitive(a.0, b.0, c.0);
    }
  }

  lemma OutranksTotal(a: Spender, b: Spender)
    requires a.0 != b.0
    ensures Outranks(a, b) || Outranks(b, a)
  {
    StrLessTotal(a.0, b.0);
  }

  /** Strictly ordered: every entry outranks every later one. */
  predicate Ranked(s: seq<Spender>)
  {
    forall i, j | 0 <= i < j < |s| :: Outranks(s[i], s[j])
  }

  predicate DistinctIds(s: seq<Spender>)
  {
    forall i, j | 0 <= i < j < |s| :: s[i].0 != s[j].0
  }

  /** An entry that outranks every entry of a ranked list heads it. */
  lemma ConsRanked(y: Spender, r: seq<Spender>)
    requires Ranked(r) && forall j | 0 <= j < |r| :: Outranks(y, r[j])
    ensures Ranked([y] + r)
  {
    forall i, j | 0 <= i < j < |[y] + r| ensures Outranks(([y] + r)[i], ([y] + r)[j]) {
      assert ([y] + r)[j] == r[j - 1];
      if i > 0 {
        assert ([y] + r)[i] == r[i - 1];
      }
    }
  }

  /** The head of a ranked list outranks its tail, which is ranked too. */
  lemma RankedTail(s: seq<Spender>)
    requires Ranked(s) && s != []
    ensures Ranked(s[1..]) && forall j | 0 <= j < |s[1..]| :: Outranks(s[0], s[1..][j])
  {
    forall j | 0 <= j < |s[1..]| ensures Outranks(s[0], s[1..][j]) {
      assert s[1..][j] == s[j + 1];
    }
  }

  /** Whatever outranks every entry of `s` and `x` outranks every entry of
      a list made of exactly those. */
  lemma OutranksAll(y: Spender, s: seq<Spender>, x: Spender, r: seq<Spender>)
    requires forall j | 0 <= j < |s| :: Outranks(y, s[j])
    requires Outranks(y, x) && multiset(r) == multiset(s) + multiset{x}
    ensures forall j | 0 <= j < |r| :: Outranks(y, r[j])
  {
    forall j | 0 <= j < |r| ensures Outranks(y, r[j]) {
      assert r[j] in multiset(r);
      if r[j] != x {
        assert r[j] in multiset(s);
        var k :| 0 <= k < |s| && s[k] == r[j];
      }
    }
  }

  /** Inserts `x` into a ranked list at its place. */
  function Insert(x: Spender, s: seq<Spender>): (r: seq<Spender>)
    requires Ranked(s)
    requires forall i | 0 <= i < |s| :: s[i].0 != x.0
    ensures Ranked(r)
    ensures multiset(r) == multiset(s) + multiset{x}
  {
    if s == [] then [x]
    else if Outranks(x, s[0]) then
      assert forall j | 0 <= j < |s| :: Outranks(x, s[j]) by {
        forall j | 0 < j < |s| ensures Outranks(x, s[j]) {
          OutranksTransitive(x, s[0], s[j]);
        }
      }
      ConsRanked(x, s);
      [x] + s
    else
      RankedTail(s);
      var rest := Insert(x, s[1..]);
      OutranksTotal(x, s[0]);
      OutranksAll(s[0], s[1..], x, rest);
      ConsRanked(s[0], rest);
      assert s == [s[0]] + s[1..];
      [s[0]] + rest
  }

  /** The sort `sorted(pairs, key=lambda item: (-item[1], item[0]))`, done
      by insertion: the result is ranked and a permutation of the input. */
  function SortByRank(s: seq<Spender>): (r: seq<Spender>)
    requires DistinctIds(s)
    ensures Ranked(r)
    ensures multiset(r) == multiset(s)
  {
    if s == [] then []
    else
      var init := s[..|s| - 1];
      var last := s[|s| - 1];
      assert s == init + [last];
      var sorted := SortByRank(init);
      assert forall i | 0 <= i < |sorted| :: sorted[i].0 != last.0 by {
        forall i | 0 <= i < |sorted| ensures sorted[i].0 != last.0 {
          assert sorted[i] in multiset(init);
          var k :| 0 <= k < |init| && init[k] == sorted[i];
          assert s[k] == sorted[i];
        }
      }
      Insert(last, sorted)
  }

  /** The pairs of a totals map, one per account. */
  predicate ListsTotals(s: seq<Spender>, totals: map<string, int>)
  {
    && (forall i | 0 <= i < |s| :: s[i].0 in totals && totals[s[i].0] == s[i].1)
    && (forall id | id in totals :: (id, totals[id]) in s)
  }

  /** `r` holds the best-ranked accounts of `totals` in order: it is ranked,
      lists only real totals, and every account left out is outranked by
      every account listed. */
  predicate IsTopOf(r: seq<Spender>, totals: map<string, int>)
  {
    && Ranked(r)
    && (forall i | 0 <= i < |r| :: r[i].0 in totals && totals[r[i].0] == r[i].1)
    && (forall id | id in totals && (id, totals[id]) !in r ::
          forall i | 0 <= i < |r| :: Outranks(r[i], (id, totals[id])))
  }

  /** Builds the pair list of `totals` (in whatever order the dict yields its
      items) and sorts it: every account appears once, in rank order. */
  method RankAll(totals: map<string, int>) returns (ranked: seq<Spender>)
    ensures Ranked(ranked)
    ensures ListsTotals(ranked, totals)
    ensures |ranked| == |totals|
  {
    var pairs: seq<Spender> := [];
    var rest := totals.Keys;
    while rest != {}
      invariant rest <= totals.Keys
      invariant DistinctIds(pairs)
      invariant forall i | 0 <= i < |pairs| :: pairs[i].0 in totals && pairs[i].0 !in rest && totals[pairs[i].0] == pairs[i].1
      invariant forall id | id in totals && id !in rest :: (id, totals[id]) in pairs
      invariant |pairs| + |rest| == |totals.Keys|
      decreases rest
    {
      var id :| id in rest;
      pairs := pairs + [(id, totals[id])];
      rest := rest - {id};
    }
    ranked := SortByRank(pairs);
    forall id | id in totals ensures (id, totals[id]) in ranked {
      assert (id, totals[id]) in multiset(pairs);
    }
    forall i | 0 <= i < |ranked| ensures ranked[i].0 in totals && totals[ranked[i].0] == ranked[i].1 {
      assert ranked[i] in multiset(pairs);
    }
    assert |ranked| == |multiset(ranked)| == |multiset(pairs)| == |pairs|;
  }

  /** Any prefix of the full ranking of `totals` is a top list of `totals`. */
  lemma PrefixIsTop(ranked: seq<Spender>, totals: map<string, int>, k: nat)
    requires k <= |ranked|
    requires Ranked(ranked) && ListsTotals(ranked, totals)
    ensures IsTopOf(ranked[..k], totals)
  {
    var r := ranked[..k];
    forall id | id in totals && (id, totals[id]) !in r
      ensures forall i | 0 <= i < |r| :: Outranks(r[i], (id, totals[id]))
    {
      var j :| 0 <= j < |ranked| && ranked[j] == (id, totals[id]);
      assert j >= k;
    }
  }

  /** Python's `s[:n]`, including a negative `n`, which counts from the end:
      a non-negative `n` keeps `n` entries, or all of them when there are
      fewer; a negative `n` drops the last `-n` entries, or everything when
      there are fewer. */
  function PySlicePrefix(s: seq<Spender>, n: int): (r: seq<Spender>)
    ensures r <= s
    ensures n >= 0 ==> |r| <= n && (|r| < n ==> r == s)
    ensures n < 0 && -n <= |s| ==> |s[|r|..]| == -n
    ensures n < 0 && -n > |s| ==> r == []
  {
    if n >= 0 then s[..Min(n, |s|)] else s[..Max(0, |s| + n)]
  }

  /** How many entries `s[:n]` keeps. */
  lemma PySliceLength(s: seq<Spender>, n: int)
    ensures |PySlicePrefix(s, n)| == if n >= 0 then Min(n, |s|) else Max(0, |s| + n)
  {
  }

  /** The entries `s[i]` for `i in range(min(n, len(s)))`: the first `n`
      entries, all of them when there are fewer, none for `n <= 0`. */
  function FirstN(s: seq<Spender>, n: int): (r: seq<Spender>)
    ensures r <= s
    ensures n <= 0 ==> r == []
    ensures n > 0 ==> |r| <= n && (|r| < n ==> r == s)
  {
    s[..Max(0, Min(n, |s|))]
  }

  /** How many entries `FirstN` keeps. */
  lemma FirstNLength(s: seq<Spender>, n: int)
    ensures |FirstN(s, n)| == Max(0, Min(n, |s|))
  {
  }

  /** The append loop over `range(min(n, len(spenders)))`: it collects the
      entries `FirstN` describes. */
  method CollectFirst(spenders: seq<Spender>, n: int) returns (result: seq<Spender>)
    ensures result == FirstN(spenders, n)
  {
    result := [];
    var i := 0;
    while i < Min(n, |spenders|)
      invariant 0 <= i <= Max(0, Min(n, |spenders|))
      invariant result == spenders[..i]
    {
      result := result + [spenders[i]];
      i := i + 1;
    }
  }
}
