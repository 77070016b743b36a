/** Filtering items by several tokens and ordering them by total score. */
module FuzzyFiltering {
  import opened Options
  import opened Fuzzy

  /** The total score of a text under all tokens, or nothing when some token does not match. */
  function TotalScore(tokens: seq<string>, text: string): Option<int> {
    if tokens == [] then Some(0)
    else
      var n := |tokens| - 1;
      var before := TotalScore(tokens[..n], text);
      if before.None? || FuzzyScore(tokens[n], text).None? then None
      else Some(before.value + FuzzyScore(tokens[n], text).value)
  }

  datatype Scored<T> = Scored(item: T, totalScore: int)

  /** The items every token matches, with their scores, in input order. */
  function Accepted<T>(items: seq<T>, tokens: seq<string>, getText: T -> string): seq<Scored<T>> {
    if items == [] then []
    else
      var n := |items| - 1;
      var score := TotalScore(tokens, getText(items[n]));
      Accepted(items[..n], tokens, getText) + (if score.Some? then [Scored(items[n], score.value)] else [])
  }

  predicate Ordered<T>(results: seq<Scored<T>>) {
    forall i, j :: 0 <= i < j < |results| ==> results[i].totalScore <= results[j].totalScore
  }

  /** The results with a given score, in order. */
  function WithScore<T>(results: seq<Scored<T>>, score: int): seq<Scored<T>> {
    if results == [] then []
    else (if results[0].totalScore == score then [results[0]] else []) + WithScore(results[1..], score)
  }

  /** A stable sort: ordered by score, with the results of each score kept in input order. */
  ghost predicate IsStableSort<T(!new)>(sorted: seq<Scored<T>>, results: seq<Scored<T>>) {
    Ordered(sorted) && forall score :: WithScore(sorted, score) == WithScore(results, score)
  }

  lemma {:induction false} WithScoreMember<T>(results: seq<Scored<T>>, score: int, r: Scored<T>)
    ensures r in WithScore(results, score) <==> r in results && r.totalScore == score
  {
    if results != [] {
      WithScoreMember(results[1..], score, r);
    }
  }

  lemma {:induction false} WithScoreConcat<T>(a: seq<Scored<T>>, b: seq<Scored<T>>, score: int)
    ensures WithScore(a + b, score) == WithScore(a, score) + WithScore(b, score)
  {
    if a == [] {
      assert a + b == b;
    } else {
      WithScoreConcat(a[1..], b, score);
      HeadOfConcat(a, b);
      WithFirst(if a[0].totalScore == score then [a[0]] else [], WithScore(a[1..], score), WithScore(b, score));
    }
  }

  lemma HeadOfConcat<T>(a: seq<T>, b: seq<T>)
    requires a != []
    ensures (a + b)[0] == a[0] && (a + b)[1..] == a[1..] + b
  {
  }

  lemma WithFirst<T>(first: seq<T>, a: seq<T>, b: seq<T>)
    ensures first + (a + b) == (first + a) + b
  {
  }

  lemma FirstIsLeast<T(!new)>(a: seq<Scored<T>>, b: seq<Scored<T>>)
    requires a != [] && Ordered(b) && forall score :: WithScore(a, score) == WithScore(b, score)
    ensures b != [] && b[0].totalScore <= a[0].totalScore
  {
    var score := a[0].totalScore;
    WithScoreMember(a, score, a[0]);
    WithScoreMember(b, score, a[0]);
    assert a[0] in b;
  }

  /** A list has exactly one stable sort. */
  lemma {:induction false} StableSortIsUnique<T(!new)>(a: seq<Scored<T>>, b: seq<Scored<T>>)
    requires Ordered(a) && Ordered(b) && forall score :: WithScore(a, score) == WithScore(b, score)
    ensures a == b
  {
    if a == [] {
      if b != [] {
        FirstIsLeast(b, a);
      }
    } else {
      FirstIsLeast(a, b);
      FirstIsLeast(b, a);
      SplitFirst(a, a[0].totalScore);
      SplitFirst(b, b[0].totalScore);
      assert WithScore(a, a[0].totalScore)[0] == a[0] && WithScore(b, a[0].totalScore)[0] == b[0];
      forall score
        ensures WithScore(a[1..], score) == WithScore(b[1..], score)
      {
        assert WithScore(a, score) == WithScore(b, score);
        SplitFirst(a, score);
        SplitFirst(b, score);
      }
      StableSortIsUnique(a[1..], b[1..]);
    }
  }

  lemma SplitFirst<T>(results: seq<Scored<T>>, score: int)
    requires results != []
    ensures WithScore(results[1..], score) ==
              if results[0].totalScore == score then WithScore(results, score)[1..] else WithScore(results, score)
    ensures results[0].totalScore == score ==> WithScore(results, score) != [] && WithScore(results, score)[0] == results[0]
  {
  }

  /** Where a result belongs in an ordered list: after everything that does not score higher. */
  method InsertStably<T(!new)>(sorted: seq<Scored<T>>, r: Scored<T>) returns (longer: seq<Scored<T>>)
    requires Ordered(sorted)
    ensures Ordered(longer)
    ensures forall score :: WithScore(longer, score) == WithScore(sorted, score) + WithScore([r], score)
  {
    var i := |sorted|;
    while i > 0 && sorted[i - 1].totalScore > r.totalScore
      invariant 0 <= i <= |sorted|
      invariant forall k :: i <= k < |sorted| ==> sorted[k].totalScore > r.totalScore
    {
      i := i - 1;
    }
    longer := sorted[..i] + [r] + sorted[i..];
    forall score {
      InsertedWithScore(sorted, r, i, score);
    }
  }

  lemma InsertedWithScore<T>(sorted: seq<Scored<T>>, r: Scored<T>, i: nat, score: int)
    requires i <= |sorted| && forall k :: i <= k < |sorted| ==> sorted[k].totalScore > r.totalScore
    ensures WithScore(sorted[..i] + [r] + sorted[i..], score) == WithScore(sorted, score) + WithScore([r], score)
  {
    assert sorted == sorted[..i] + sorted[i..];
    WithScoreConcat(sorted[..i] + [r], sorted[i..], score);
    WithScoreConcat(sorted[..i], [r], score);
    WithScoreConcat(sorted[..i], sorted[i..], score);
    if score == r.totalScore {
      NoneWithScore(sorted[i..], score);
    } else {
      NoneWithScore([r], score);
    }
    ExchangeEmpty(WithScore(sorted[..i], score), WithScore(sorted[i..], score), WithScore([r], score));
  }

  lemma ExchangeEmpty<T>(a: seq<T>, b: seq<T>, c: seq<T>)
    requires b == [] || c == []
    ensures a + c + b == a + b + c
  {
  }

  lemma {:induction false} NoneWithScore<T>(results: seq<Scored<T>>, score: int)
    requires forall k :: 0 <= k < |results| ==> results[k].totalScore != score
    ensures WithScore(results, score) == []
  {
    if results != [] {
      NoneWithScore(results[1..], score);
    }
  }

  /** The built-in stable sort by `totalScore`. */
  method SortByScore<T(!new)>(results: seq<Scored<T>>) returns (sorted: seq<Scored<T>>)
    ensures IsStableSort(sorted, results)
  {
    sorted := [];
    for i := 0 to |results|
      invariant IsStableSort(sorted, results[..i])
    {
      ghost var before := sorted;
      sorted := InsertStably(sorted, results[i]);
      assert results[..i + 1] == results[..i] + [results[i]];
      forall score
        ensures WithScore(sorted, score) == WithScore(results[..i + 1], score)
      {
        WithScoreConcat(results[..i], [results[i]], score);
      }
    }
    assert results[..|results|] == results;
  }

  function Items<T>(results: seq<Scored<T>>): seq<T> {
    seq(|results|, i requires 0 <= i < |results| => results[i].item)
  }

  /** The total score of one item, giving up at the first token that does not match. */
  method ScoreItem(tokens: seq<string>, text: string) returns (allMatch: bool, totalScore: int)
    ensures allMatch == TotalScore(tokens, text).Some?
    ensures allMatch ==> totalScore == TotalScore(tokens, text).value
  {
    totalScore, allMatch := 0, true;
    var k := 0;
    while k < |tokens| && allMatch
      invariant k <= |tokens|
      invariant allMatch == TotalScore(tokens[..k], text).Some?
      invariant allMatch ==> totalScore == TotalScore(tokens[..k], text).value
    {
      var matches, score := FuzzyMatch(tokens[k], text);
      assert tokens[..k + 1][..k] == tokens[..k];
      if matches {
        totalScore := totalScore + score;
      } else {
        allMatch := false;
      }
      k := k + 1;
    }
    assert tokens[..|tokens|] == tokens;
    if !allMatch {
      MismatchStays(tokens, text, k);
    }
  }

  lemma {:induction false} MismatchStays(tokens: seq<string>, text: string, k: nat)
    requires k <= |tokens| && TotalScore(tokens[..k], text).None?
    ensures TotalScore(tokens, text).None?
  {
    if k == |tokens| {
      assert tokens[..k] == tokens;
    } else {
      assert tokens[..|tokens| - 1][..k] == tokens[..k];
      MismatchStays(tokens[..|tokens| - 1], text, k);
    }
  }

  /** Filter and sort: exactly the items every token matches, as the stable sort by total score. */
  method FuzzyFilter<T(!new)>(items: seq<T>, tokens: seq<string>, getText: T -> string) returns (filtered: seq<T>)
    ensures tokens == [] ==> filtered == items
    ensures tokens != [] ==>
              exists sorted :: IsStableSort(sorted, Accepted(items, tokens, getText)) && filtered == Items(sorted)
  {
    if |tokens| == 0 {
      return items;
    }
    var results: seq<Scored<T>> := [];
    for i := 0 to |items|
      invariant results == Accepted(items[..i], tokens, getText)
    {
      var allMatch, totalScore := ScoreItem(tokens, getText(items[i]));
      assert items[..i + 1][..i] == items[..i];
      if allMatch {
        results := results + [Scored(items[i], totalScore)];
      }
    }
    assert items[..|items|] == items;
    var sorted := SortByScore(results);
    filtered := Items(sorted);
  }

  /** A stable sort keeps every result as often as it occurs. */
  lemma {:induction false} CountedByScore<T>(results: seq<Scored<T>>, r: Scored<T>)
    ensures multiset(results)[r] == multiset(WithScore(results, r.totalScore))[r]
  {
    if results != [] {
      CountedByScore(results[1..], r);
      assert results == [results[0]] + results[1..];
    }
  }

  lemma StableSortIsPermutation<T(!new)>(sorted: seq<Scored<T>>, results: seq<Scored<T>>)
    requires IsStableSort(sorted, results)
    ensures multiset(sorted) == multiset(results)
  {
    forall r
      ensures multiset(sorted)[r] == multiset(results)[r]
    {
      CountedByScore(sorted, r);
      CountedByScore(results, r);
      assert WithScore(sorted, r.totalScore) == WithScore(results, r.totalScore);
    }
  }

  function Add(a: Option<int>, b: Option<int>): Option<int> {
    if a.None? || b.None? then None else Some(a.value + b.value)
  }

  lemma TotalSnoc(tokens: seq<string>, token: string, text: string)
    ensures TotalScore(tokens + [token], text) == Add(TotalScore(tokens, text), FuzzyScore(token, text))
  {
    assert (tokens + [token])[..|tokens|] == tokens;
  }

  function Without<T>(xs: seq<T>, i: nat): seq<T>
    requires i < |xs|
  {
    xs[..i] + xs[i + 1..]
  }

  lemma WithoutSnoc<T>(xs: seq<T>, x: T, i: nat)
    requires i < |xs|
    ensures Without(xs + [x], i) == Without(xs, i) + [x]
  {
  }

  lemma AddSwap(a: Option<int>, b: Option<int>, c: Option<int>)
    ensures Add(Add(a, b), c) == Add(Add(a, c), b)
  {
  }

  lemma {:induction false} TakeOut(tokens: seq<string>, text: string, i: nat)
    requires i < |tokens|
    ensures TotalScore(tokens, text) == Add(TotalScore(Without(tokens, i), text), FuzzyScore(tokens[i], text))
  {
    var n := |tokens| - 1;
    var init, last := tokens[..n], tokens[n];
    assert tokens == init + [last];
    TotalSnoc(init, last, text);
    if i == n {
      assert Without(tokens, i) == init;
    } else {
      TakeOut(init, text, i);
      WithoutSnoc(init, last, i);
      TotalSnoc(Without(init, i), last, text);
      AddSwap(TotalScore(Without(init, i), text), FuzzyScore(tokens[i], text), FuzzyScore(last, text));
    }
  }

  lemma WithoutCounts<T>(xs: seq<T>, i: nat)
    requires i < |xs|
    ensures multiset(xs) == multiset(Without(xs, i)) + multiset{xs[i]}
  {
    assert xs == xs[..i] + [xs[i]] + xs[i + 1..];
  }

  /** The order of the tokens does not matter for any text. */
  lemma {:induction false} TokenOrderIsIrrelevant(a: seq<string>, b: seq<string>, text: string)
    requires multiset(a) == multiset(b)
    ensures TotalScore(a, text) == TotalScore(b, text)
    decreases |a|
  {
    if a == [] {
      assert |b| == |multiset(b)| == 0;
    } else {
      var n := |a| - 1;
      assert a[n] in multiset(b);
      var i :| 0 <= i < |b| && b[i] == a[n];
      WithoutCounts(a, n);
      WithoutCounts(b, i);
      assert multiset(Without(a, n)) == multiset(a) - multiset{a[n]};
      TakeOut(a, text, n);
      TakeOut(b, text, i);
      TokenOrderIsIrrelevant(Without(a, n), Without(b, i), text);
    }
  }

  lemma {:induction false} AcceptedIgnoresOrder<T>(items: seq<T>, a: seq<string>, b: seq<string>, getText: T -> string)
    requires multiset(a) == multiset(b)
    ensures Accepted(items, a, getText) == Accepted(items, b, getText)
  {
    if items != [] {
      AcceptedIgnoresOrder(items[..|items| - 1], a, b, getText);
      TokenOrderIsIrrelevant(a, b, getText(items[|items| - 1]));
    }
  }

  /** The filtered list is the same for every order of the tokens. */
  lemma FilterIgnoresTokenOrder<T(!new)>(items: seq<T>, a: seq<string>, b: seq<string>, getText: T -> string,
                                         sortedA: seq<Scored<T>>, sortedB: seq<Scored<T>>)
    requires multiset(a) == multiset(b)
    requires IsStableSort(sortedA, Accepted(items, a, getText)) && IsStableSort(sortedB, Accepted(items, b, getText))
    ensures Items(sortedA) == Items(sortedB)
  {
    AcceptedIgnoresOrder(items, a, b, getText);
    forall score
      ensures WithScore(sortedA, score) == WithScore(sortedB, score)
    {
      assert WithScore(sortedA, score) == WithScore(Accepted(items, a, getText), score);
    }
    StableSortIsUnique(sortedA, sortedB);
  }
}
