/**
 * The relevance filter of `aprocess_html`: sections are cut to their first 200
 * characters, scored by the reranker against the query and against the word
 * "date", kept when their query score lies strictly above the 90th percentile
 * of all query scores or their date score exceeds 0.1, and mapped back to full
 * text through a dictionary keyed by the 200-character prefix.
 */
module Relevance {

  const PrefixLength := 200
  const DateQuery := "date"
  const DateThreshold: real := 0.1
  const RerankerModel := "mixedbread-ai/mxbai-rerank-xsmall-v1"

  /** `section[:200]`. */
  function Truncate(s: string): (t: string)
    ensures |t| <= PrefixLength && |t| <= |s| && t == s[..|t|]
    ensures |s| <= PrefixLength ==> t == s
    ensures |s| > PrefixLength ==> |t| == PrefixLength
  {
    if |s| <= PrefixLength then s else s[..PrefixLength]
  }

  /** `[section[:200] for section in sections]`. */
  function Truncated(sections: seq<string>): seq<string> {
    seq(|sections|, i requires 0 <= i < |sections| => Truncate(sections[i]))
  }

  // ---------------------------------------------------------------------------
  // The 90th percentile (numpy's default, linear interpolation)
  // ---------------------------------------------------------------------------

  ghost predicate Sorted(t: seq<real>) {
    forall i, j :: 0 <= i < j < |t| ==> t[i] <= t[j]
  }

  /** Inserts `x` into sorted `t` before the first element not below it. */
  function Insert(x: real, t: seq<real>): (r: seq<real>)
    requires Sorted(t)
    ensures Sorted(r) && |r| == |t| + 1 && multiset(r) == multiset(t) + multiset{x}
    ensures r[0] == if t == [] || x <= t[0] then x else t[0]
  {
    if t == [] then [x]
    else if x <= t[0] then [x] + t
    else
      var rest := Insert(x, t[1..]);
      assert t == [t[0]] + t[1..];
      assert forall k :: 0 <= k < |rest| ==> rest[0] <= rest[k];
      [t[0]] + rest
  }

  /** The scores in ascending order. */
  function SortReals(s: seq<real>): (t: seq<real>)
    ensures Sorted(t) && |t| == |s| && multiset(t) == multiset(s)
  {
    if s == [] then []
    else
      assert s == [s[0]] + s[1..];
      Insert(s[0], SortReals(s[1..]))
  }

  function Min(s: seq<real>): (m: real)
    requires |s| > 0
    ensures m in s && forall x :: x in s ==> m <= x
  {
    if |s| == 1 then s[0]
    else
      var r := Min(s[1..]);
      assert s == [s[0]] + s[1..];
      if s[0] <= r then s[0] else r
  }

  function Max(s: seq<real>): (m: real)
    requires |s| > 0
    ensures m in s && forall x :: x in s ==> x <= m
  {
    if |s| == 1 then s[0]
    else
      var r := Max(s[1..]);
      assert s == [s[0]] + s[1..];
      if s[0] >= r then s[0] else r
  }

  /** The lower rank `(n - 1) * 90 / 100` of the 90th percentile among `n` sorted values. */
  function LowerRank(n: nat): (lo: nat)
    requires n > 0
    ensures lo < n
    ensures (n - 1) * 90 % 100 != 0 ==> lo + 1 < n
  {
    (n - 1) * 90 / 100
  }

  /**
   * `np.percentile(s, 90)`: the value at fractional rank `(n - 1) * 0.9` of the
   * sorted values, interpolated linearly between the two closest ranks.
   */
  function Percentile90(s: seq<real>): real
    requires |s| > 0
  {
    var t := SortReals(s);
    var lo := LowerRank(|s|);
    if (|s| - 1) * 90 % 100 == 0 then t[lo]
    else Lerp(t[lo], t[lo + 1], (|s| - 1) * 90 % 100)
  }

  lemma {:induction false} ScaledNonNegative(k: nat, d: real)
    requires d >= 0.0
    ensures (k as real) * d >= 0.0
  {
    if k > 0 {
      ScaledNonNegative(k - 1, d);
      assert (k as real) * d == ((k - 1) as real) * d + d;
    }
  }

  /** Linear interpolation from `a` towards `b` with weight `k / 100`. */
  function Lerp(a: real, b: real, k: nat): (r: real)
    requires a <= b && k <= 100
    ensures a <= r <= b
  {
    ScaledNonNegative(k, b - a);
    ScaledNonNegative(100 - k, b - a);
    assert ((100 - k) as real) * (b - a) == 100.0 * (b - a) - (k as real) * (b - a);
    a + (k as real) * (b - a) / 100.0
  }

  /** The percentile is at least the sorted value at its lower rank and within the range of the values. */
  lemma PercentileWithinRange(s: seq<real>)
    requires |s| > 0
    ensures Min(s) <= Percentile90(s) <= Max(s)
    ensures SortReals(s)[LowerRank(|s|)] <= Percentile90(s)
  {
    var t := SortReals(s);
    var lo := LowerRank(|s|);
    var m := (|s| - 1) * 90 % 100;
    var hi := if m == 0 then lo else lo + 1;
    assert t[lo] <= Percentile90(s) <= t[hi];
    assert t[lo] in multiset(t) && t[hi] in multiset(t);
    assert t[lo] in s && t[hi] in s;
  }

  /** How many of the values lie strictly above `p`. */
  function CountAbove(s: seq<real>, p: real): nat {
    if s == [] then 0
    else CountAbove(s[..|s| - 1], p) + (if s[|s| - 1] > p then 1 else 0)
  }

  lemma {:induction false} CountAboveConcat(u: seq<real>, v: seq<real>, p: real)
    ensures CountAbove(u + v, p) == CountAbove(u, p) + CountAbove(v, p)
    decreases |v|
  {
    if v == [] {
      assert u + v == u;
    } else {
      var n := |v| - 1;
      assert (u + v)[..|u + v| - 1] == u + v[..n];
      CountAboveConcat(u, v[..n], p);
    }
  }

  lemma {:induction false} CountAboveAtMostLength(s: seq<real>, p: real)
    ensures CountAbove(s, p) <= |s|
  {
    if s != [] {
      CountAboveAtMostLength(s[..|s| - 1], p);
    }
  }

  lemma {:induction false} CountAboveNone(s: seq<real>, p: real)
    requires forall k :: 0 <= k < |s| ==> s[k] <= p
    ensures CountAbove(s, p) == 0
  {
    if s != [] {
      CountAboveNone(s[..|s| - 1], p);
    }
  }

  /** Counting the values above a threshold does not depend on their order. */
  lemma {:induction false} CountAbovePermutation(a: seq<real>, b: seq<real>, p: real)
    requires multiset(a) == multiset(b)
    ensures CountAbove(a, p) == CountAbove(b, p)
    decreases |a|
  {
    if a == [] {
      assert |b| == |multiset(b)| == 0;
    } else {
      var n := |a| - 1;
      var x := a[n];
      assert a == a[..n] + [x];
      assert x in multiset(b);
      var k :| 0 <= k < |b| && b[k] == x;
      assert b == b[..k] + [x] + b[k + 1..];
      var b' := b[..k] + b[k + 1..];
      assert multiset(b') == multiset(b) - multiset{x};
      assert multiset(a[..n]) == multiset(a) - multiset{x};
      CountAbovePermutation(a[..n], b', p);
      CountAboveConcat(a[..n], [x], p);
      CountAboveConcat(b[..k] + [x], b[k + 1..], p);
      CountAboveConcat(b[..k], [x], p);
      CountAboveConcat(b[..k], b[k + 1..], p);
    }
  }

  /**
   * At most the values ranked above the percentile's lower rank can lie strictly
   * above the 90th percentile: for ten scores, at most one.
   */
  lemma {:induction false} FewScoresAbovePercentile(s: seq<real>)
    requires |s| > 0
    ensures CountAbove(s, Percentile90(s)) <= |s| - 1 - LowerRank(|s|)
  {
    var t := SortReals(s);
    var p := Percentile90(s);
    PercentileWithinRange(s);
    FewAboveSortedRank(t, LowerRank(|s|), p);
    CountAbovePermutation(s, t, p);
  }

  /** In a sorted list whose value at rank `i` is at most `p`, only the values after rank `i` can exceed `p`. */
  lemma {:induction false} FewAboveSortedRank(t: seq<real>, i: nat, p: real)
    requires Sorted(t) && i < |t| && t[i] <= p
    ensures CountAbove(t, p) <= |t| - 1 - i
  {
    var low, high := t[..i + 1], t[i + 1..];
    assert t == low + high;
    assert forall k :: 0 <= k < |low| ==> low[k] <= p by {
      forall k | 0 <= k < |low|
        ensures low[k] <= p
      {
        assert low[k] == t[k] <= t[i];
      }
    }
    CountAboveNone(low, p);
    CountAboveAtMostLength(high, p);
    CountAboveConcat(low, high, p);
  }

  // ---------------------------------------------------------------------------
  // Which sections survive
  // ---------------------------------------------------------------------------

  predicate Survives(score: real, dateScore: real, threshold: real) {
    score > threshold || dateScore > DateThreshold
  }

  /**
   * The `corpus_id`s of the surviving sections, in input order (the comprehension
   * over the two rankings zipped after both were sorted by `corpus_id`).
   */
  function Survivors(scores: seq<real>, dateScores: seq<real>, threshold: real): (kept: seq<nat>)
    requires |dateScores| == |scores|
    ensures |kept| <= |scores|
    ensures forall j :: 0 <= j < |kept| ==> kept[j] < |scores| && Survives(scores[kept[j]], dateScores[kept[j]], threshold)
    ensures forall i :: 0 <= i < |scores| && Survives(scores[i], dateScores[i], threshold) ==> i in kept
    ensures forall j, k :: 0 <= j < k < |kept| ==> kept[j] < kept[k]
    decreases |scores|
  {
    if scores == [] then []
    else
      var n := |scores| - 1;
      Survivors(scores[..n], dateScores[..n], threshold)
      + (if Survives(scores[n], dateScores[n], threshold) then [n] else [])
  }

  /** No more sections survive than have a query score above the threshold or a date score above 0.1. */
  lemma {:induction false} SurvivorsCount(scores: seq<real>, dateScores: seq<real>, threshold: real)
    requires |dateScores| == |scores|
    ensures |Survivors(scores, dateScores, threshold)| <= CountAbove(scores, threshold) + CountAbove(dateScores, DateThreshold)
    decreases |scores|
  {
    if scores != [] {
      var n := |scores| - 1;
      SurvivorsCount(scores[..n], dateScores[..n], threshold);
    }
  }

  // ---------------------------------------------------------------------------
  // From prefixes back to full sections
  // ---------------------------------------------------------------------------

  /** `{section[:200]: section for section in sections}`: a later section overwrites an earlier one. */
  function PrefixTable(sections: seq<string>): (table: map<string, string>)
    ensures forall i :: 0 <= i < |sections| ==> Truncate(sections[i]) in table
    ensures forall key :: key in table ==> Truncate(table[key]) == key
    ensures forall key :: key in table ==> table[key] in sections
  {
    if sections == [] then map[]
    else
      var n := |sections| - 1;
      PrefixTable(sections[..n])[Truncate(sections[n]) := sections[n]]
  }

  /** The index of the last section whose prefix is `key`, or -1. */
  function LastWithPrefix(sections: seq<string>, key: string): (k: int)
    ensures -1 <= k < |sections|
    ensures k >= 0 ==> Truncate(sections[k]) == key
    ensures forall i :: k < i < |sections| ==> Truncate(sections[i]) != key
  {
    if sections == [] then -1
    else
      var n := |sections| - 1;
      if Truncate(sections[n]) == key then n else LastWithPrefix(sections[..n], key)
  }

  /** The prefix dictionary maps a prefix to the last section that has it. */
  lemma {:induction false} PrefixTableLastWins(sections: seq<string>, key: string)
    ensures key in PrefixTable(sections) <==> LastWithPrefix(sections, key) >= 0
    ensures key in PrefixTable(sections) ==> PrefixTable(sections)[key] == sections[LastWithPrefix(sections, key)]
  {
    if sections != [] {
      var n := |sections| - 1;
      PrefixTableLastWins(sections[..n], key);
    }
  }

  /** The sections the filter keeps, as full text. */
  function RelevanceFilter(sections: seq<string>, scores: seq<real>, dateScores: seq<real>): (out: seq<string>)
    requires |sections| > 0 && |scores| == |sections| && |dateScores| == |sections|
    ensures |out| <= |sections|
    ensures forall j :: 0 <= j < |out| ==> out[j] in sections
  {
    var threshold := Percentile90(scores);
    var kept := Survivors(scores, dateScores, threshold);
    var truncatedToFull := PrefixTable(sections);
    var truncated := Truncated(sections);
    seq(|kept|, j requires 0 <= j < |kept| => truncatedToFull[truncated[kept[j]]])
  }

  /**
   * Each surviving section, in input order, comes back as the LAST section that
   * shares its 200-character prefix; the output is never longer than the input.
   */
  lemma RelevanceFilterMapsThroughPrefix(sections: seq<string>, scores: seq<real>, dateScores: seq<real>)
    requires |sections| > 0 && |scores| == |sections| && |dateScores| == |sections|
    ensures var kept := Survivors(scores, dateScores, Percentile90(scores));
            var out := RelevanceFilter(sections, scores, dateScores);
            && |out| == |kept| <= |sections|
            && forall j :: 0 <= j < |out| ==>
                 && kept[j] <= LastWithPrefix(sections, Truncate(sections[kept[j]]))
                 && out[j] == sections[LastWithPrefix(sections, Truncate(sections[kept[j]]))]
  {
    var kept := Survivors(scores, dateScores, Percentile90(scores));
    forall j | 0 <= j < |kept|
      ensures kept[j] <= LastWithPrefix(sections, Truncate(sections[kept[j]]))
      ensures PrefixTable(sections)[Truncate(sections[kept[j]])] == sections[LastWithPrefix(sections, Truncate(sections[kept[j]]))]
    {
      PrefixTableLastWins(sections, Truncate(sections[kept[j]]));
    }
  }

  /** When no two sections share a prefix, the filter returns exactly the surviving sections. */
  lemma DistinctPrefixesAreLossless(sections: seq<string>, scores: seq<real>, dateScores: seq<real>)
    requires |sections| > 0 && |scores| == |sections| && |dateScores| == |sections|
    requires forall i, k :: 0 <= i < k < |sections| ==> Truncate(sections[i]) != Truncate(sections[k])
    ensures var kept := Survivors(scores, dateScores, Percentile90(scores));
            RelevanceFilter(sections, scores, dateScores) == seq(|kept|, j requires 0 <= j < |kept| => sections[kept[j]])
  {
    var kept := Survivors(scores, dateScores, Percentile90(scores));
    RelevanceFilterMapsThroughPrefix(sections, scores, dateScores);
    forall j | 0 <= j < |kept|
      ensures LastWithPrefix(sections, Truncate(sections[kept[j]])) == kept[j]
    {
    }
  }

  // ---------------------------------------------------------------------------
  // Worked cases
  // ---------------------------------------------------------------------------

  lemma {:induction false} SortedIsFixed(s: seq<real>)
    requires Sorted(s)
    ensures SortReals(s) == s
  {
    if s != [] {
      SortedIsFixed(s[1..]);
      assert s == [s[0]] + s[1..];
    }
  }

  lemma {:induction false} InsertAboveAll(x: real, t: seq<real>)
    requires Sorted(t) && forall k :: 0 <= k < |t| ==> t[k] < x
    ensures Insert(x, t) == t + [x]
  {
    if t != [] {
      InsertAboveAll(x, t[1..]);
      assert t == [t[0]] + t[1..];
    }
  }

  lemma {:induction false} NoSurvivors(scores: seq<real>, dateScores: seq<real>, threshold: real)
    requires |dateScores| == |scores|
    requires forall k :: 0 <= k < |scores| ==> !Survives(scores[k], dateScores[k], threshold)
    ensures Survivors(scores, dateScores, threshold) == []
    decreases |scores|
  {
    if scores != [] {
      var n := |scores| - 1;
      NoSurvivors(scores[..n], dateScores[..n], threshold);
    }
  }

  /** When exactly one section passes the cut, it is the only survivor. */
  lemma {:induction false} SoleSurvivor(scores: seq<real>, dateScores: seq<real>, threshold: real, i: nat)
    requires |dateScores| == |scores| && i < |scores|
    requires forall k :: 0 <= k < |scores| ==> (Survives(scores[k], dateScores[k], threshold) <==> k == i)
    ensures Survivors(scores, dateScores, threshold) == [i]
    decreases |scores|
  {
    var n := |scores| - 1;
    if n == i {
      NoSurvivors(scores[..n], dateScores[..n], threshold);
    } else {
      SoleSurvivor(scores[..n], dateScores[..n], threshold, i);
    }
  }

  /** Nine scores of 0.1 and one of 0.9 put the 90th percentile at rank 8.1, that is 0.1 + 0.1 * 0.8. */
  lemma OutlierPercentile()
    ensures Percentile90([0.9] + seq(9, _ => 0.1)) == 0.18
  {
    var low := seq(9, _ => 0.1);
    var scores := [0.9] + low;
    SortedIsFixed(low);
    InsertAboveAll(0.9, low);
    assert scores[1..] == low;
    var t := SortReals(scores);
    assert t == low + [0.9];
    assert LowerRank(10) == 8 && 9 * 90 % 100 == 10;
    assert Lerp(0.1, 0.9, 10) == 0.18;
  }

  /**
   * Ten sections with query scores 0.9, 0.1, ..., 0.1 and no date relevance:
   * the 90th percentile is 0.18 and only the first section survives.
   */
  lemma OneOutlierSurvives()
    ensures var scores := [0.9] + seq(9, _ => 0.1);
            var dates := seq(10, _ => 0.0);
            && Percentile90(scores) == 0.18
            && Survivors(scores, dates, 0.18) == [0]
  {
    var scores := [0.9] + seq(9, _ => 0.1);
    var dates := seq(10, _ => 0.0);
    OutlierPercentile();
    SoleSurvivor(scores, dates, 0.18, 0);
  }

  /**
   * Two different sections sharing their first 200 characters: when only the
   * first survives, the filter hands back the second one in its place.
   */
  lemma SharedPrefixReturnsLaterSection(a: string, b: string)
    requires Truncate(a) == Truncate(b) && a != b
    ensures RelevanceFilter([a, b], [1.0, 0.0], [0.0, 0.0]) == [b]
  {
    var scores := [1.0, 0.0];
    assert scores[1..] == [0.0];
    assert SortReals([0.0]) == [0.0];
    assert SortReals(scores) == [0.0, 1.0];
    assert Percentile90(scores) == 0.9;
    assert Survivors(scores, [0.0, 0.0], 0.9) == [0];
    assert PrefixTable([a, b])[Truncate(a)] == b;
  }
}
