/** Greedy fuzzy matching with a signed score; lower is better. Scores are counted in tenths, so that
    the per-position penalty is exact. Query and text are taken as already lower-cased. */
module Fuzzy {
  import opened Options
  import opened Characters

  const WHOLE_TEXT_REWARD := 1000

  predicate AtWordBoundary(text: string, i: nat)
    requires i < |text|
  {
    i == 0 || IsSeparator(text[i - 1])
  }

  /** The scan after a number of characters: how much of the query is matched, the score so far, where
      the last match was (-1 for none) and how many matches in a row led to it. */
  datatype Scan = Scan(queryIndex: nat, score: int, lastMatchIndex: int, consecutiveMatches: nat)

  function Advance(text: string, s: Scan, i: nat): Scan
    requires i < |text|
  {
    var inRow := s.lastMatchIndex == i - 1;
    var consecutive := if inRow then s.consecutiveMatches + 1 else 0;
    Scan(
      s.queryIndex + 1,
      s.score
      + (if inRow then -50 * consecutive else if s.lastMatchIndex >= 0 then 20 * (i - s.lastMatchIndex - 1) else 0)
      + (if AtWordBoundary(text, i) then -100 else 0)
      + i,
      i,
      consecutive)
  }

  /** The scan after the first `i` characters of the text. */
  function Scanned(query: string, text: string, i: nat): Scan
    requires i <= |text|
  {
    if i == 0 then Scan(0, 0, -1, 0)
    else
      var before := Scanned(query, text, i - 1);
      if before.queryIndex < |query| && text[i - 1] == query[before.queryIndex]
      then Advance(text, before, i - 1) else before
  }

  /** The outcome of matching a whole query: its score, or nothing when it does not match. */
  function MatchScore(query: string, text: string): Option<int> {
    if query == "" then Some(0)
    else if |query| > |text| || Scanned(query, text, |text|).queryIndex < |query| then None
    else Some(Scanned(query, text, |text|).score - (if query == text then WHOLE_TEXT_REWARD else 0))
  }

  lemma {:induction false} ScanIsBounded(query: string, text: string, i: nat)
    requires i <= |text|
    ensures Scanned(query, text, i).queryIndex <= |query|
  {
    if i > 0 {
      ScanIsBounded(query, text, i - 1);
    }
  }

  /** A finished scan does not change any more, which is why the loop may stop early. */
  lemma {:induction false} ScanStops(query: string, text: string, i: nat, j: nat)
    requires i <= j <= |text| && Scanned(query, text, i).queryIndex == |query|
    ensures Scanned(query, text, j) == Scanned(query, text, i)
    decreases j
  {
    if i < j {
      ScanStops(query, text, i, j - 1);
    }
  }

  method MatchQuery(query: string, text: string) returns (matches: bool, score: int)
    ensures matches == MatchScore(query, text).Some?
    ensures score == if matches then MatchScore(query, text).value else 0
  {
    if |query| == 0 {
      return true, 0;
    }
    if |query| > |text| {
      return false, 0;
    }
    var queryIndex, lastMatchIndex, consecutiveMatches, i := 0, -1, 0, 0;
    score := 0;
    while i < |text| && queryIndex < |query|
      invariant 0 <= queryIndex && 0 <= consecutiveMatches && i <= |text|
      invariant Scan(queryIndex, score, lastMatchIndex, consecutiveMatches) == Scanned(query, text, i)
    {
      if text[i] == query[queryIndex] {
        if lastMatchIndex == i - 1 {
          consecutiveMatches := consecutiveMatches + 1;
          score := score - consecutiveMatches * 50;
        } else {
          consecutiveMatches := 0;
          if lastMatchIndex >= 0 {
            score := score + (i - lastMatchIndex - 1) * 20;
          }
        }
        if i == 0 || IsSeparator(text[i - 1]) {
          score := score - 100;
        }
        score := score + i;
        lastMatchIndex := i;
        queryIndex := queryIndex + 1;
      }
      i := i + 1;
    }
    ScanIsBounded(query, text, i);
    if queryIndex == |query| {
      ScanStops(query, text, i, |text|);
    }
    if queryIndex < |query| {
      return false, 0;
    }
    if query == text {
      score := score - WHOLE_TEXT_REWARD;
    }
    matches := true;
  }

  function LeadingRun(text: string, inClass: char -> bool): (n: nat)
    ensures n <= |text| && forall k :: 0 <= k < n ==> inClass(text[k])
    ensures n < |text| ==> !inClass(text[n])
  {
    if text == "" || !inClass(text[0]) then 0 else 1 + LeadingRun(text[1..], inClass)
  }

  predicate AllIn(text: string, inClass: char -> bool) {
    text != "" && forall k :: 0 <= k < |text| ==> inClass(text[k])
  }

  /** Letters followed by digits, or digits followed by letters, with the two groups exchanged. */
  function Swapped(query: string): Option<string> {
    var letters, digits := LeadingRun(query, IsLetter), LeadingRun(query, IsDigit);
    if letters > 0 && AllIn(query[letters..], IsDigit) then Some(query[letters..] + query[..letters])
    else if digits > 0 && AllIn(query[digits..], IsLetter) then Some(query[digits..] + query[..digits])
    else None
  }

  function FuzzyScore(query: string, text: string): Option<int> {
    if MatchScore(query, text).Some? then MatchScore(query, text)
    else if Swapped(query).Some? && MatchScore(Swapped(query).value, text).Some?
    then Some(MatchScore(Swapped(query).value, text).value + 50)
    else None
  }

  method FuzzyMatch(query: string, text: string) returns (matches: bool, score: int)
    ensures matches == FuzzyScore(query, text).Some?
    ensures score == if matches then FuzzyScore(query, text).value else 0
  {
    matches, score := MatchQuery(query, text);
    if matches || Swapped(query).None? {
      return;
    }
    matches, score := MatchQuery(Swapped(query).value, text);
    if matches {
      score := score + 50;
    }
  }
}
