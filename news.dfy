/** The news page's merge of the feeds' articles: one article per title, at most fifteen. */
module News {

  /** An article as the feed parser builds it; only the title matters here. */
  datatype Article = Article(title: string, url: string, source: string)

  const MaxArticles := 15

  /** `self.findIndex(a => a.title === title)`: the first position with the title, or -1. */
  function FindIndex(s: seq<Article>, title: string): (r: int)
    ensures -1 <= r < |s|
    ensures r >= 0 ==> s[r].title == title && forall j :: 0 <= j < r ==> s[j].title != title
    ensures r == -1 ==> forall j :: 0 <= j < |s| ==> s[j].title != title
  {
    if |s| == 0 then -1
    else if s[0].title == title then 0
    else
      var r := FindIndex(s[1..], title);
      if r == -1 then -1 else r + 1
  }

  /** Whether position `i` holds the first article with its title. */
  predicate IsFirst(s: seq<Article>, i: int)
    requires 0 <= i < |s|
  {
    FindIndex(s, s[i].title) == i
  }

  /** The first occurrences among the first `n` positions, in order. */
  function FirstsUpTo(s: seq<Article>, n: nat): (r: seq<Article>)
    requires n <= |s|
    ensures |r| <= n
  {
    if n == 0 then []
    else
      var prev := FirstsUpTo(s, n - 1);
      if IsFirst(s, n - 1) then prev + [s[n - 1]] else prev
  }

  /** Every kept article is the first article with its title among the first `n`. */
  lemma {:induction false} FirstsOrigin(s: seq<Article>, n: nat, k: nat)
    requires n <= |s| && k < |FirstsUpTo(s, n)|
    ensures exists i :: 0 <= i < n && FirstsUpTo(s, n)[k] == s[i] && IsFirst(s, i)
  {
    var prev := FirstsUpTo(s, n - 1);
    if k < |prev| {
      FirstsOrigin(s, n - 1, k);
      var i :| 0 <= i < n - 1 && prev[k] == s[i] && IsFirst(s, i);
      assert FirstsUpTo(s, n)[k] == s[i];
    } else {
      assert FirstsUpTo(s, n)[k] == s[n - 1];
    }
  }

  /** `allArticles.filter((article, index, self) => index === self.findIndex(a => a.title === article.title))`. */
  function Unique(s: seq<Article>): seq<Article>
  {
    FirstsUpTo(s, |s|)
  }

  /** The articles shown: the unique ones, cut at fifteen. */
  function Latest(s: seq<Article>): (r: seq<Article>)
    ensures |r| <= MaxArticles && |r| <= |Unique(s)|
    ensures r == Unique(s)[..|r|]
    ensures |Unique(s)| <= MaxArticles ==> r == Unique(s)
  {
    var u := Unique(s);
    if |u| <= MaxArticles then u else u[..MaxArticles]
  }

  predicate DistinctTitles(s: seq<Article>)
  {
    forall i, j :: 0 <= i < j < |s| ==> s[i].title != s[j].title
  }

  /** The kept articles carry pairwise different titles. */
  lemma {:induction false} FirstsDistinct(s: seq<Article>, n: nat)
    requires n <= |s|
    ensures DistinctTitles(FirstsUpTo(s, n))
  {
    if n > 0 {
      FirstsDistinct(s, n - 1);
      var prev := FirstsUpTo(s, n - 1);
      if IsFirst(s, n - 1) {
        var r := prev + [s[n - 1]];
        forall k | 0 <= k < |prev|
          ensures prev[k].title != s[n - 1].title
        {
          FirstsOrigin(s, n - 1, k);
          var i :| 0 <= i < n - 1 && prev[k] == s[i] && IsFirst(s, i);
          assert FindIndex(s, s[i].title) == i;
        }
        forall a, b | 0 <= a < b < |r|
          ensures r[a].title != r[b].title
        {
          assert r[a] == prev[a];
          if b < |prev| { assert r[b] == prev[b]; }
        }
      }
    }
  }

  /** Every title of the input is kept: its first article is in the result. */
  lemma {:induction false} FirstsCover(s: seq<Article>, n: nat, i: nat)
    requires i < n <= |s|
    ensures s[FindIndex(s, s[i].title)] in FirstsUpTo(s, n)
  {
    var f := FindIndex(s, s[i].title);
    var prev := FirstsUpTo(s, n - 1);
    if f == n - 1 {
      assert IsFirst(s, n - 1);
      assert FirstsUpTo(s, n) == prev + [s[n - 1]];
    } else {
      if i < n - 1 {
        FirstsCover(s, n - 1, i);
      } else {
        assert f < i;
        assert s[f].title == s[i].title;
        assert FindIndex(s, s[f].title) == f;
        FirstsCover(s, n - 1, f);
      }
      assert s[f] in prev;
      assert FirstsUpTo(s, n) == prev || FirstsUpTo(s, n) == prev + [s[n - 1]];
    }
  }

  /**
   * The merge keeps exactly one article per title: the first one, so titles
   * in the result are distinct, every input title is present, and every
   * kept article comes from the input.
   */
  lemma UniqueSpec(s: seq<Article>)
    ensures DistinctTitles(Unique(s))
    ensures forall i :: 0 <= i < |s| ==> s[FindIndex(s, s[i].title)] in Unique(s)
    ensures forall a :: a in Unique(s) ==> a in s
  {
    FirstsDistinct(s, |s|);
    forall i | 0 <= i < |s|
      ensures s[FindIndex(s, s[i].title)] in Unique(s)
    {
      FirstsCover(s, |s|, i);
    }
    var u := Unique(s);
    forall a | a in u
      ensures a in s
    {
      var k :| 0 <= k < |u| && u[k] == a;
      FirstsOrigin(s, |s|, k);
    }
  }

  /** The positions of the first occurrences among the first `n`, in order. */
  function FirstPositions(s: seq<Article>, n: nat): (r: seq<nat>)
    requires n <= |s|
    ensures forall k :: 0 <= k < |r| ==> r[k] < n
  {
    if n == 0 then []
    else
      var prev := FirstPositions(s, n - 1);
      if IsFirst(s, n - 1) then prev + [n - 1] else prev
  }

  predicate Increasing(r: seq<nat>)
  {
    forall a, b :: 0 <= a < b < |r| ==> r[a] < r[b]
  }

  /** The positions grow strictly, one for each kept article. */
  lemma {:induction false} PositionsIncrease(s: seq<Article>, n: nat)
    requires n <= |s|
    ensures |FirstPositions(s, n)| == |FirstsUpTo(s, n)| && Increasing(FirstPositions(s, n))
  {
    if n > 0 {
      PositionsIncrease(s, n - 1);
      var prev := FirstPositions(s, n - 1);
      if IsFirst(s, n - 1) {
        var r := prev + [n - 1];
        forall a, b | 0 <= a < b < |r|
          ensures r[a] < r[b]
        {
          assert r[a] == prev[a];
          if b < |prev| { assert r[b] == prev[b]; }
        }
      }
    }
  }

  /** The `k`-th kept article is the input's article at the `k`-th position, a first occurrence. */
  lemma {:induction false} PositionsHold(s: seq<Article>, n: nat, k: nat)
    requires n <= |s| && k < |FirstPositions(s, n)| && |FirstPositions(s, n)| == |FirstsUpTo(s, n)|
    ensures IsFirst(s, FirstPositions(s, n)[k]) && FirstsUpTo(s, n)[k] == s[FirstPositions(s, n)[k]]
  {
    var prev := FirstPositions(s, n - 1);
    var kept := FirstsUpTo(s, n - 1);
    PositionsIncrease(s, n - 1);
    if IsFirst(s, n - 1) {
      assert FirstPositions(s, n) == prev + [n - 1];
      assert FirstsUpTo(s, n) == kept + [s[n - 1]];
      if k < |prev| {
        PositionsHold(s, n - 1, k);
      }
    } else {
      assert FirstPositions(s, n) == prev;
      assert FirstsUpTo(s, n) == kept;
      PositionsHold(s, n - 1, k);
    }
  }

  /** Every first occurrence among the first `n` is one of the positions. */
  lemma {:induction false} PositionsCover(s: seq<Article>, n: nat, i: nat)
    requires i < n <= |s| && IsFirst(s, i)
    ensures i in FirstPositions(s, n)
  {
    var prev := FirstPositions(s, n - 1);
    if i < n - 1 {
      PositionsCover(s, n - 1, i);
      assert FirstPositions(s, n) == prev || FirstPositions(s, n) == prev + [n - 1];
    } else {
      assert FirstPositions(s, n) == prev + [n - 1];
    }
  }

  /** The de-duplicated list keeps feed order: it is the input at increasing positions, exactly the first occurrences. */
  lemma UniqueOrder(s: seq<Article>)
    ensures |FirstPositions(s, |s|)| == |Unique(s)| && Increasing(FirstPositions(s, |s|))
    ensures forall k :: 0 <= k < |Unique(s)| ==> Unique(s)[k] == s[FirstPositions(s, |s|)[k]]
    ensures forall i :: 0 <= i < |s| ==> (IsFirst(s, i) <==> i in FirstPositions(s, |s|))
  {
    PositionsIncrease(s, |s|);
    var P := FirstPositions(s, |s|);
    forall k | 0 <= k < |P|
      ensures Unique(s)[k] == s[P[k]]
    {
      PositionsHold(s, |s|, k);
    }
    forall i | 0 <= i < |s|
      ensures IsFirst(s, i) <==> i in P
    {
      if IsFirst(s, i) {
        PositionsCover(s, |s|, i);
      }
      if i in P {
        var k :| 0 <= k < |P| && P[k] == i;
        PositionsHold(s, |s|, k);
      }
    }
  }

  /** `.slice(0, 15)` shows the first fifteen titles in feed order: the first occurrences at the lowest positions. */
  lemma LatestOrder(s: seq<Article>)
    ensures |Latest(s)| == if |Unique(s)| <= MaxArticles then |Unique(s)| else MaxArticles
    ensures |Latest(s)| <= |FirstPositions(s, |s|)|
    ensures forall k :: 0 <= k < |Latest(s)| ==> Latest(s)[k] == s[FirstPositions(s, |s|)[k]]
  {
    UniqueOrder(s);
  }

  /** Where titles are distinct, every article is the first with its title. */
  lemma FirstOfDistinct(s: seq<Article>, i: nat)
    requires i < |s| && DistinctTitles(s)
    ensures IsFirst(s, i)
  {
    var r := FindIndex(s, s[i].title);
    assert r != -1 && r <= i;
  }

  /** Articles whose titles are already distinct are all kept, in order. */
  lemma {:induction false} UniqueOfDistinct(s: seq<Article>, n: nat)
    requires n <= |s| && DistinctTitles(s)
    ensures FirstsUpTo(s, n) == s[..n]
  {
    if n > 0 {
      FirstOfDistinct(s, n - 1);
      calc {
        FirstsUpTo(s, n);
        FirstsUpTo(s, n - 1) + [s[n - 1]];
        { UniqueOfDistinct(s, n - 1); }
        s[..n - 1] + [s[n - 1]];
        s[..n];
      }
    }
  }

  /** Merging a merged list again changes nothing. */
  lemma UniqueIdempotent(s: seq<Article>)
    ensures Unique(Unique(s)) == Unique(s)
  {
    var u := Unique(s);
    FirstsDistinct(s, |s|);
    UniqueOfDistinct(u, |u|);
    assert u[..|u|] == u;
  }

  /** The shown articles also carry distinct titles. */
  lemma LatestDistinct(s: seq<Article>)
    ensures DistinctTitles(Latest(s))
  {
    FirstsDistinct(s, |s|);
  }
}
