/** The candidate list of `showRandomQuote` and the choice of one entry from it. */
module Selector {
  import opened QuoteData

  /** What one call of `showRandomQuote` comes to: the "No quotes found."
      message, or the index drawn and the quote found there. */
  datatype PickOutcome = NoQuotesFound | Picked(index: nat, quote: Quote)

  /** `quotes.filter(q => q.category === category)`: keeps exactly the quotes
      of that category, each as often as it occurs. */
  function InCategory(quotes: seq<Quote>, category: string): (r: seq<Quote>)
    ensures |r| <= |quotes|
    ensures forall q :: q in r ==> q.category == category
    ensures forall q :: multiset(r)[q] == if q.category == category then multiset(quotes)[q] else 0
  {
    if quotes == [] then []
    else
      var rest := InCategory(quotes[1..], category);
      assert quotes == [quotes[0]] + quotes[1..];
      if quotes[0].category == category then [quotes[0]] + rest else rest
  }

  /** The filter of `showRandomQuote` applies only when it was asked for and the
      stored category is set (truthy) and is not the "all" sentinel. */
  predicate FilterActive(filtered: bool, selected: Option<string>)
  {
    filtered && IsSet(selected) && selected.value != "all"
  }

  /** The candidate list: with the filter active, exactly the quotes of the
      stored category; otherwise the whole collection. */
  function Candidates(quotes: seq<Quote>, filtered: bool, selected: Option<string>): (r: seq<Quote>)
    ensures FilterActive(filtered, selected) ==>
      forall q :: q in r <==> q in quotes && q.category == selected.value
    ensures !FilterActive(filtered, selected) ==> r == quotes
  {
    if FilterActive(filtered, selected) then InCategory(quotes, selected.value) else quotes
  }

  /** `Math.floor(random * n)` for a `random` drawn from [0, 1): always an
      index of a list of length `n`. */
  function RandomIndex(random: real, n: nat): (i: nat)
    requires 0.0 <= random < 1.0 && n > 0
    ensures i < n
  {
    var x := random * n as real;
    assert 0.0 <= x < n as real by {
      assert (1.0 - random) * n as real > 0.0;
    }
    x.Floor
  }

  /** Every index is hit by exactly the draws in [i/n, (i+1)/n), an interval of
      width 1/n: a uniform draw gives a uniform index. */
  lemma RandomIndexInterval(random: real, n: nat, i: nat)
    requires 0.0 <= random < 1.0 && n > 0
    ensures RandomIndex(random, n) == i <==>
      i as real / n as real <= random < (i + 1) as real / n as real
  {
    var nr := n as real;
    var x := random * nr;
    assert x.Floor == i <==> i as real <= x < (i + 1) as real;
    DivideBoth(i as real, random, nr);
    DivideBoth(random, (i + 1) as real, nr);
  }

  /** Dividing by a positive number keeps a comparison in both directions. */
  lemma DivideBoth(a: real, b: real, n: real)
    requires n > 0.0
    ensures a <= b * n <==> a / n <= b
    ensures a * n < b <==> a < b / n
  {
    assert (a / n) * n == a;
    assert (b / n) * n == b;
    if a <= b * n { assert a / n <= (b * n) / n; }
  }

  /** The draws `showRandomQuote` may make: for a list of `n > 0` candidates,
      an index below `n`. */
  ghost predicate IsIndexDraw(choose: nat -> nat)
  {
    forall n: nat :: 0 < n ==> choose(n) < n
  }

  /** `Math.floor(Math.random() * n)` with the value `random` that
      `Math.random()` returned is such a draw. */
  lemma RandomIndexIsDraw(random: real)
    requires 0.0 <= random < 1.0
    ensures IsIndexDraw((n: nat) => if n > 0 then RandomIndex(random, n) else 0)
  {
  }

  /** The choice `showRandomQuote` makes among the candidates: an empty list
      gives the "No quotes found." outcome and draws nothing; otherwise one
      index is drawn, it lies in the list, and the outcome carries the quote
      there. */
  function Pick(candidates: seq<Quote>, choose: nat -> nat): (p: PickOutcome)
    requires IsIndexDraw(choose)
    ensures p.NoQuotesFound? <==> candidates == []
    ensures p.Picked? ==>
      p.index < |candidates| && p.quote == candidates[p.index] && p.quote in candidates
    ensures p.Picked? ==> p.index == choose(|candidates|)
  {
    if |candidates| == 0 then NoQuotesFound
    else
      var i := choose(|candidates|);
      Picked(i, candidates[i])
  }
}
