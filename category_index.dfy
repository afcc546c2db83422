/** The category dropdown: the distinct categories of the collection and the
    rule that decides which option is selected after the list is rebuilt. */
module CategoryIndex {
  import opened QuoteData

  /** The value of the leading "All Categories" option. */
  const AllCategories: string := "all"

  predicate NoDuplicates(s: seq<string>)
  {
    forall i, j :: 0 <= i < j < |s| ==> s[i] != s[j]
  }

  /** The position of the first occurrence of `x` in `s`. */
  function FirstIndex(s: seq<string>, x: string): (i: nat)
    requires x in s
    ensures i < |s| && s[i] == x && x !in s[..i]
  {
    if s[0] == x then 0
    else
      var i := FirstIndex(s[1..], x);
      assert s[1..][..i] == s[1..i + 1];
      assert s[..i + 1] == [s[0]] + s[1..i + 1];
      i + 1
  }

  /** `[...new Set(s)]`: a `Set` keeps the order in which values were first
      inserted and ignores later insertions of the same value. */
  function Distinct(s: seq<string>): (r: seq<string>)
    ensures NoDuplicates(r)
    ensures forall x :: x in r <==> x in s
  {
    if s == [] then []
    else
      var p := s[..|s| - 1];
      var r := Distinct(p);
      assert s == p + [s[|s| - 1]];
      if s[|s| - 1] in r then r else r + [s[|s| - 1]]
  }

  /** The first occurrence of `x` in `p` is also its first occurrence once
      more elements are appended. */
  lemma {:induction false} FirstIndexExtend(p: seq<string>, y: string, x: string)
    requires x in p
    ensures FirstIndex(p + [y], x) == FirstIndex(p, x)
  {
    var s := p + [y];
    var i, j := FirstIndex(p, x), FirstIndex(s, x);
    assert s[..i] == p[..i];
    // neither first occurrence can lie before the other
    assert forall k :: 0 <= k < i ==> s[k] == s[..i][k] != x;
    assert forall k :: 0 <= k < j ==> s[k] == s[..j][k] != x;
    assert s[i] == p[i] == x == s[j];
  }

  /** The distinct values come out in the order of their first appearance. */
  lemma {:induction false} DistinctFirstAppearanceOrder(s: seq<string>)
    ensures forall i, j :: 0 <= i < j < |Distinct(s)| ==>
      FirstIndex(s, Distinct(s)[i]) < FirstIndex(s, Distinct(s)[j])
  {
    if s != [] {
      var p, y := s[..|s| - 1], s[|s| - 1];
      assert s == p + [y];
      DistinctFirstAppearanceOrder(p);
      var rp := Distinct(p);
      forall x | x in p ensures FirstIndex(s, x) == FirstIndex(p, x) {
        FirstIndexExtend(p, y, x);
      }
      if y !in rp {
        assert y !in p;
        assert FirstIndex(s, y) == |p| by {
          assert forall k :: 0 <= k < |p| ==> s[k] == p[k] != y;
        }
        forall i | 0 <= i < |rp| ensures FirstIndex(s, rp[i]) < FirstIndex(s, y) {
          assert rp[i] in p;
        }
      }
    }
  }

  /** `quotes.map(q => q.category)`. */
  function CategoriesOf(quotes: seq<Quote>): (r: seq<string>)
    ensures |r| == |quotes|
    ensures forall i :: 0 <= i < |quotes| ==> r[i] == quotes[i].category
  {
    seq(|quotes|, i requires 0 <= i < |quotes| => quotes[i].category)
  }

  /** The option values of the rebuilt dropdown: the "all" sentinel, then each
      category of the collection once, in order of first appearance. */
  function CategoryOptions(quotes: seq<Quote>): (r: seq<string>)
    ensures |r| >= 1 && r[0] == AllCategories
    ensures NoDuplicates(r[1..])
    ensures forall c :: c in r[1..] <==> exists q :: q in quotes && q.category == c
  {
    var cats := CategoriesOf(quotes);
    var r := [AllCategories] + Distinct(cats);
    assert r[1..] == Distinct(cats);
    forall c ensures c in cats <==> exists q :: q in quotes && q.category == c {
      if c in cats {
        var i :| 0 <= i < |cats| && cats[i] == c;
        assert quotes[i] in quotes;
      }
      if exists q :: q in quotes && q.category == c {
        var q :| q in quotes && q.category == c;
        var i :| 0 <= i < |quotes| && quotes[i] == q;
        assert cats[i] == c;
      }
    }
    r
  }

  /** After the leading "all", the options come in the order in which their
      categories first appear in the collection. */
  lemma CategoryOptionsOrder(quotes: seq<Quote>)
    ensures var r := CategoryOptions(quotes);
      forall i, j :: 1 <= i < j < |r| ==>
        FirstIndex(CategoriesOf(quotes), r[i]) < FirstIndex(CategoriesOf(quotes), r[j])
  {
    var cats := CategoriesOf(quotes);
    var r := CategoryOptions(quotes);
    assert r[1..] == Distinct(cats);
    DistinctFirstAppearanceOrder(cats);
    forall i, j | 1 <= i < j < |r|
      ensures FirstIndex(cats, r[i]) < FirstIndex(cats, r[j])
    {
      assert r[i] == Distinct(cats)[i - 1] && r[j] == Distinct(cats)[j - 1];
    }
  }

  /** Appending values that already occur adds nothing to `Distinct`. */
  lemma {:induction false} DistinctAppendKnown(s: seq<string>, t: seq<string>)
    requires forall x :: x in t ==> x in s
    ensures Distinct(s + t) == Distinct(s)
  {
    if t != [] {
      var t', y := t[..|t| - 1], t[|t| - 1];
      assert s + t == (s + t') + [y];
      assert (s + t)[..|s + t| - 1] == s + t';
      DistinctAppendKnown(s, t');
      assert y in Distinct(s + t');
    } else {
      assert s + t == s;
    }
  }

  /** Adding quotes whose categories are all listed already (re-importing an
      export, say) leaves the dropdown's options as they were. */
  lemma CategoryOptionsAppendKnown(quotes: seq<Quote>, more: seq<Quote>)
    requires forall q :: q in more ==> exists p :: p in quotes && p.category == q.category
    ensures CategoryOptions(quotes + more) == CategoryOptions(quotes)
  {
    var cats, extra := CategoriesOf(quotes), CategoriesOf(more);
    assert CategoriesOf(quotes + more) == cats + extra;
    forall c | c in extra ensures c in cats {
      var i :| 0 <= i < |extra| && extra[i] == c;
      assert more[i] in more;
      var p :| p in quotes && p.category == c;
      var j :| 0 <= j < |quotes| && quotes[j] == p;
      assert cats[j] == c;
    }
    DistinctAppendKnown(cats, extra);
  }

  /** After the options are rebuilt, the dropdown shows the stored category if
      one is set, else the value it had before, else "all"; it is never left
      empty. */
  function RestoreSelection(saved: Option<string>, current: string): (v: string)
    ensures IsSet(saved) ==> v == saved.value
    ensures !IsSet(saved) && current != "" ==> v == current
    ensures !IsSet(saved) && current == "" ==> v == AllCategories
    ensures v != ""
  {
    if IsSet(saved) then saved.value
    else if current != "" then current
    else AllCategories
  }
}
