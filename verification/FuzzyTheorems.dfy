/** Completeness, optimality of positions and score laws of the greedy matcher. */
module FuzzyTheorems {
  import opened Options
  import opened Characters
  import opened Fuzzy

  // ---------------------------------------------------------------- positions

  /** Strictly increasing positions of the text that spell the query. */
  ghost predicate Embeds(query: string, text: string, ps: seq<nat>) {
    && |ps| == |query|
    && (forall k :: 0 <= k < |ps| ==> ps[k] < |text| && text[ps[k]] == query[k])
    && (forall j, k :: 0 <= j < k < |ps| ==> ps[j] < ps[k])
  }

  ghost predicate IsSubsequence(query: string, text: string) {
    exists ps :: Embeds(query, text, ps)
  }

  /** The positions at which the scan has advanced. */
  function Positions(query: string, text: string, i: nat): seq<nat>
    requires i <= |text|
  {
    if i == 0 then []
    else
      var q := Scanned(query, text, i - 1).queryIndex;
      var before := Positions(query, text, i - 1);
      if q < |query| && text[i - 1] == query[q] then before + [i - 1] else before
  }

  lemma EmbedOneMore(query: string, text: string, q: nat, ps: seq<nat>, i: nat)
    requires q < |query| && i < |text| && text[i] == query[q]
    requires Embeds(query[..q], text, ps) && forall k :: 0 <= k < |ps| ==> ps[k] < i
    ensures Embeds(query[..q + 1], text, ps + [i])
  {
    assert forall k :: 0 <= k < q ==> query[..q + 1][k] == query[..q][k];
  }

  lemma {:induction false} PositionsEmbed(query: string, text: string, i: nat)
    requires i <= |text|
    ensures var q, ps := Scanned(query, text, i).queryIndex, Positions(query, text, i);
            && |ps| == q <= |query| && Embeds(query[..q], text, ps)
            && (forall k :: 0 <= k < |ps| ==> ps[k] < i)
  {
    if i > 0 {
      PositionsEmbed(query, text, i - 1);
      var q := Scanned(query, text, i - 1).queryIndex;
      if q < |query| && text[i - 1] == query[q] {
        EmbedOneMore(query, text, q, Positions(query, text, i - 1), i - 1);
      }
    }
  }

  lemma PositionsGrow(query: string, text: string, i: nat)
    requires i < |text|
    ensures var before, after := Positions(query, text, i), Positions(query, text, i + 1);
            && before <= after
            && (|before| < |query| && text[i] == query[|before|] ==> after == before + [i])
            && (forall k :: 0 <= k < |before| ==> before[k] < i)
  {
    PositionsEmbed(query, text, i);
  }

  lemma {:induction false} PositionsPrefix(query: string, text: string, i: nat, j: nat)
    requires i <= j <= |text|
    ensures Positions(query, text, i) <= Positions(query, text, j)
  {
    if i < j {
      PositionsPrefix(query, text, i, j - 1);
      PositionsGrow(query, text, j - 1);
    }
  }

  /** Where an embedding takes its `k`-th character, the scan has taken as many. */
  lemma {:induction false} GreedyKeepsUp(query: string, text: string, ps: seq<nat>, k: nat)
    requires Embeds(query, text, ps) && k < |ps|
    ensures k < |Positions(query, text, ps[k] + 1)| && Positions(query, text, ps[k] + 1)[k] <= ps[k]
  {
    var i := ps[k];
    var before := Positions(query, text, i);
    if k > 0 {
      assert ps[k - 1] < i;
      GreedyKeepsUp(query, text, ps, k - 1);
      PositionsPrefix(query, text, ps[k - 1] + 1, i);
      assert k <= |before|;
    }
    PositionsGrow(query, text, i);
    assert text[i] == query[k];
    if |before| == k {
      assert Positions(query, text, i + 1) == before + [i];
    } else {
      assert before[k] < i;
    }
  }

  /** No embedding of the query reaches one of its characters before the greedy scan does. */
  lemma GreedyStaysAhead(query: string, text: string, ps: seq<nat>, k: nat)
    requires Embeds(query, text, ps) && k < |ps|
    ensures k < |Positions(query, text, |text|)| && Positions(query, text, |text|)[k] <= ps[k]
  {
    GreedyKeepsUp(query, text, ps, k);
    PositionsPrefix(query, text, ps[k] + 1, |text|);
  }

  lemma EmbeddingFits(query: string, text: string, ps: seq<nat>, k: nat)
    requires Embeds(query, text, ps) && k < |ps|
    ensures k <= ps[k]
  {
    if k > 0 {
      EmbeddingFits(query, text, ps, k - 1);
    }
  }

  /** Greedy completeness: a query matches exactly the texts it is a subsequence of, and the positions
      used are pointwise leftmost among all embeddings. The length shortcut rejects no match. */
  lemma MatchesIffSubsequence(query: string, text: string)
    ensures MatchScore(query, text).Some? <==> IsSubsequence(query, text)
    ensures MatchScore(query, text).Some? && query != "" ==>
              Embeds(query, text, Positions(query, text, |text|))
    ensures forall ps :: Embeds(query, text, ps) ==>
              |Positions(query, text, |text|)| == |ps|
              && forall k :: 0 <= k < |ps| ==> Positions(query, text, |text|)[k] <= ps[k]
  {
    assert query[..|query|] == query;
    PositionsEmbed(query, text, |text|);
    forall ps | Embeds(query, text, ps)
      ensures |Positions(query, text, |text|)| == |query| && |query| <= |text|
      ensures forall k :: 0 <= k < |ps| ==> Positions(query, text, |text|)[k] <= ps[k]
    {
      forall k: nat | k < |ps|
        ensures k < |Positions(query, text, |text|)| && Positions(query, text, |text|)[k] <= ps[k]
      {
        GreedyStaysAhead(query, text, ps, k);
      }
      if query != "" {
        EmbeddingFits(query, text, ps, |query| - 1);
        GreedyStaysAhead(query, text, ps, |query| - 1);
      }
    }
    if query == "" {
      assert Embeds(query, text, []);
    } else if MatchScore(query, text).Some? {
      var q := Scanned(query, text, |text|).queryIndex;
      assert query[..q] == query;
    }
  }

  // ---------------------------------------------------------------- the score as a sum

  /** How many matches in a row end at the `k`-th position; a match at the very start counts as one. */
  function RunLength(ps: seq<nat>, k: nat): nat
    requires k < |ps|
  {
    if k == 0 then (if ps[0] == 0 then 1 else 0)
    else if ps[k] == ps[k - 1] + 1 then RunLength(ps, k - 1) + 1
    else 0
  }

  /** What the `k`-th matched character contributes to the score. */
  function Gain(text: string, ps: seq<nat>, k: nat): int
    requires k < |ps| && ps[k] < |text|
  {
    var here: int := ps[k];
    (if RunLength(ps, k) > 0 then -50 * RunLength(ps, k) else if k > 0 then 20 * (here - ps[k - 1] - 1) else 0)
    + (if AtWordBoundary(text, ps[k]) then -100 else 0)
    + here
  }

  function Total(text: string, ps: seq<nat>, n: nat): int
    requires n <= |ps| && forall k :: 0 <= k < |ps| ==> ps[k] < |text|
  {
    if n == 0 then 0 else Total(text, ps, n - 1) + Gain(text, ps, n - 1)
  }

  lemma {:induction false} RunLengthOfPrefix(ps: seq<nat>, p: nat, k: nat)
    requires k < |ps|
    ensures RunLength(ps + [p], k) == RunLength(ps, k)
  {
    if k > 0 {
      RunLengthOfPrefix(ps, p, k - 1);
    }
  }

  lemma {:induction false} TotalOfPrefix(text: string, ps: seq<nat>, p: nat, n: nat)
    requires n <= |ps| && p < |text| && forall k :: 0 <= k < |ps| ==> ps[k] < |text|
    ensures Total(text, ps + [p], n) == Total(text, ps, n)
  {
    if n > 0 {
      TotalOfPrefix(text, ps, p, n - 1);
      RunLengthOfPrefix(ps, p, n - 1);
    }
  }

  /** One more matched position: what the scan does to its counters is what the sum says. */
  lemma AdvanceIsGain(text: string, s: Scan, ps: seq<nat>, i: nat)
    requires i < |text| && (forall k :: 0 <= k < |ps| ==> ps[k] < i) && Tracks(text, s, ps)
    ensures Tracks(text, Advance(text, s, i), ps + [i])
  {
    var n := |ps|;
    var all := ps + [i];
    TotalOfPrefix(text, ps, i, n);
    if n > 0 {
      RunLengthOfPrefix(ps, i, n - 1);
    }
    assert RunLength(all, n) == if s.lastMatchIndex == i - 1 then s.consecutiveMatches + 1 else 0;
    assert Total(text, all, n + 1) == Total(text, all, n) + Gain(text, all, n);
  }

  /** The counters of a scan against the positions used so far. */
  predicate Tracks(text: string, s: Scan, ps: seq<nat>) {
    && (forall k :: 0 <= k < |ps| ==> ps[k] < |text|)
    && s.queryIndex == |ps|
    && s.score == Total(text, ps, |ps|)
    && s.lastMatchIndex == (if ps == [] then -1 else ps[|ps| - 1])
    && s.consecutiveMatches == (if ps == [] then 0 else RunLength(ps, |ps| - 1))
  }

  /** The running score is the sum of the contributions of the positions used so far. */
  lemma {:induction false} ScoreIsTotal(query: string, text: string, i: nat)
    requires i <= |text|
    ensures Tracks(text, Scanned(query, text, i), Positions(query, text, i))
  {
    if i > 0 {
      ScoreIsTotal(query, text, i - 1);
      PositionsEmbed(query, text, i - 1);
      var before := Scanned(query, text, i - 1);
      if before.queryIndex < |query| && text[i - 1] == query[before.queryIndex] {
        AdvanceIsGain(text, before, Positions(query, text, i - 1), i - 1);
      }
    }
  }

  /** The score of a match is the sum over its positions, with the reward for matching the whole text. */
  lemma MatchScoreIsTotal(query: string, text: string)
    requires query != "" && MatchScore(query, text).Some?
    ensures var ps := Positions(query, text, |text|);
            && Embeds(query, text, ps)
            && MatchScore(query, text).value
               == Total(text, ps, |query|) - (if query == text then WHOLE_TEXT_REWARD else 0)
  {
    MatchesIffSubsequence(query, text);
    ScoreIsTotal(query, text, |text|);
  }

  // ---------------------------------------------------------------- exact matches

  function UpTo(n: nat): seq<nat> {
    seq(n, k requires 0 <= k < n => k)
  }

  lemma {:induction false} SelfPositions(query: string, i: nat)
    requires i <= |query|
    ensures Scanned(query, query, i).queryIndex == i && Positions(query, query, i) == UpTo(i)
  {
    if i > 0 {
      SelfPositions(query, i - 1);
    }
  }

  lemma {:induction false} RunIsShort(ps: seq<nat>, k: nat)
    requires k < |ps|
    ensures RunLength(ps, k) <= k + 1
    ensures RunLength(ps, k) == k + 1 ==> ps[k] == k
  {
    if k > 0 {
      RunIsShort(ps, k - 1);
    }
  }

  lemma {:induction false} SelfRun(n: nat, k: nat)
    requires k < n
    ensures RunLength(UpTo(n), k) == k + 1
  {
    if k > 0 {
      SelfRun(n, k - 1);
    }
  }

  /** No character does better in any embedding than in the query's match against itself: breaking a
      run of matches costs at least what a word boundary can win back. */
  lemma NoGainOverSelf(query: string, text: string, ps: seq<nat>, k: nat)
    requires Embeds(query, text, ps) && k < |query|
    ensures Gain(query, UpTo(|query|), k) <= Gain(text, ps, k)
  {
    EmbeddingFits(query, text, ps, k);
    RunIsShort(ps, k);
    SelfRun(|query|, k);
    if k > 0 && RunLength(ps, k) > 0 {
      assert text[ps[k] - 1] == query[k - 1];
    }
  }

  lemma {:induction false} TotalNotBelowSelf(query: string, text: string, ps: seq<nat>, n: nat)
    requires Embeds(query, text, ps) && n <= |query|
    ensures Total(query, UpTo(|query|), n) <= Total(text, ps, n)
  {
    if n > 0 {
      TotalNotBelowSelf(query, text, ps, n - 1);
      NoGainOverSelf(query, text, ps, n - 1);
    }
  }

  /** Exact-match dominance: any other text that matches a query scores at least 100 points above the
      query's match against itself. */
  lemma ExactMatchDominates(query: string, text: string)
    requires query != "" && text != query && MatchScore(query, text).Some?
    ensures MatchScore(query, query).Some?
    ensures MatchScore(query, query).value + WHOLE_TEXT_REWARD <= MatchScore(query, text).value
  {
    SelfPositions(query, |query|);
    MatchScoreIsTotal(query, query);
    MatchScoreIsTotal(query, text);
    TotalNotBelowSelf(query, text, Positions(query, text, |text|), |query|);
  }

  // ---------------------------------------------------------------- bounds

  lemma GainFromBelow(text: string, ps: seq<nat>, k: nat)
    requires k < |ps| && ps[k] < |text| && (k > 0 ==> ps[k - 1] < ps[k])
    ensures -50 * (k + 1) - 100 <= Gain(text, ps, k)
  {
    RunIsShort(ps, k);
  }

  lemma NextTriangle(n: int)
    ensures 25 * (n + 1) * (n + 2) == 25 * n * (n + 1) + 50 * (n + 1)
  {
  }

  lemma {:induction false} TotalFromBelow(text: string, ps: seq<nat>, n: nat)
    requires n <= |ps| && (forall k :: 0 <= k < |ps| ==> ps[k] < |text|)
    requires forall j, k :: 0 <= j < k < |ps| ==> ps[j] < ps[k]
    ensures -(25 * n * (n + 1) + 100 * n) <= Total(text, ps, n)
  {
    if n > 0 {
      TotalFromBelow(text, ps, n - 1);
      GainFromBelow(text, ps, n - 1);
      NextTriangle(n - 1);
    }
  }

  lemma {:induction false} TotalFromAbove(text: string, ps: seq<nat>, n: nat)
    requires 0 < n <= |ps| && (forall k :: 0 <= k < |ps| ==> ps[k] < |text|)
    requires forall j, k :: 0 <= j < k < |ps| ==> ps[j] < ps[k]
    ensures Total(text, ps, n) <= 20 * (ps[n - 1] - ps[0] - (n - 1)) + n * (|text| - 1)
  {
    if n > 1 {
      TotalFromAbove(text, ps, n - 1);
      assert n * (|text| - 1) == (n - 1) * (|text| - 1) + (|text| - 1);
    }
  }

  /** With n characters matched in a text of m, the score in tenths lies between
      -(25 n (n + 1) + 100 n + 1000) and 20 (m - n) + n (m - 1). */
  lemma ScoreIsBounded(query: string, text: string)
    requires query != "" && MatchScore(query, text).Some?
    ensures var n, m, score := |query|, |text|, MatchScore(query, text).value;
            -(25 * n * (n + 1) + 100 * n + 1000) <= score <= 20 * (m - n) + n * (m - 1)
  {
    var ps := Positions(query, text, |text|);
    MatchScoreIsTotal(query, text);
    TotalFromBelow(text, ps, |query|);
    TotalFromAbove(text, ps, |query|);
  }

  // ---------------------------------------------------------------- swapped groups

  /** The two groups are exchanged, and nothing else qualifies. */
  lemma SwapExchangesGroups(query: string, a: string, b: string)
    requires query == a + b
    requires (AllIn(a, IsLetter) && AllIn(b, IsDigit)) || (AllIn(a, IsDigit) && AllIn(b, IsLetter))
    ensures Swapped(query) == Some(b + a)
  {
    var letters, digits := LeadingRun(query, IsLetter), LeadingRun(query, IsDigit);
    assert query[|a|] == b[0] && query[0] == a[0];
    assert query[..|a|] == a && query[|a|..] == b;
    if AllIn(a, IsLetter) {
      assert letters == |a|;
    } else {
      assert letters == 0 && digits == |a|;
    }
  }

  /** Swapping twice gives the query back. */
  lemma SwapIsInvolution(query: string)
    requires Swapped(query).Some?
    ensures Swapped(Swapped(query).value) == Some(query)
  {
    var letters, digits := LeadingRun(query, IsLetter), LeadingRun(query, IsDigit);
    var k := if letters > 0 && AllIn(query[letters..], IsDigit) then letters else digits;
    assert query == query[..k] + query[k..];
    SwapExchangesGroups(query[k..] + query[..k], query[k..], query[..k]);
  }

  /** The matcher with its fallback accepts exactly the texts that contain the query, or the query
      with its groups exchanged, as a subsequence. */
  lemma FuzzyMatchesIff(query: string, text: string)
    ensures FuzzyScore(query, text).Some? <==>
              IsSubsequence(query, text)
              || (Swapped(query).Some? && IsSubsequence(Swapped(query).value, text))
  {
    MatchesIffSubsequence(query, text);
    if Swapped(query).Some? {
      MatchesIffSubsequence(Swapped(query).value, text);
    }
  }
}
