/**
 * The two queries the Ad answers about its comments: the comment a given user
 * wrote (`getCommentFromAuthor`) and the mean rating (`getAverageRatings`).
 */
module AdComments {
  import opened Options
  import opened AdEntity
  import opened ArrayCollection

  /** Every comment in the sequence is a loaded object with an author and a rating. */
  predicate Loaded(cs: seq<CommentId>, g: Graph) {
    forall c :: c in cs ==> c in g.comments
  }

  /** Comment `c` was written by user `u` (strict identity on the author). */
  predicate WrittenBy(g: Graph, c: CommentId, u: UserId)
    requires c in g.comments
  {
    g.comments[c].author == Some(u)
  }

  /**
   * The first comment, in collection order, whose author is `u`; none when no
   * comment has that author.
   */
  function CommentFromAuthor(cs: seq<CommentId>, g: Graph, u: UserId): (r: Option<CommentId>)
    requires Loaded(cs, g)
    ensures r.None? <==> forall i :: 0 <= i < |cs| ==> !WrittenBy(g, cs[i], u)
    ensures r.Some? ==> exists i :: 0 <= i < |cs| && cs[i] == r.value && WrittenBy(g, cs[i], u)
                                    && forall j :: 0 <= j < i ==> !WrittenBy(g, cs[j], u)
  {
    if |cs| == 0 then None
    else if WrittenBy(g, cs[0], u) then Some(cs[0])
    else
      var r := CommentFromAuthor(cs[1..], g, u);
      assert forall i :: 1 <= i < |cs| ==> cs[i] == cs[1..][i - 1];
      if r.Some? then
        var k :| 0 <= k < |cs[1..]| && cs[1..][k] == r.value && WrittenBy(g, cs[1..][k], u)
                 && forall j :: 0 <= j < k ==> !WrittenBy(g, cs[1..][j], u);
        assert cs[k + 1] == r.value;
        r
      else
        r
  }

  /** When a user wrote exactly one comment on the Ad, the lookup returns that comment. */
  lemma CommentFromUniqueAuthor(cs: seq<CommentId>, g: Graph, u: UserId, c: CommentId)
    requires Loaded(cs, g)
    requires c in cs && WrittenBy(g, c, u)
    requires forall d :: d in cs && WrittenBy(g, d, u) ==> d == c
    ensures CommentFromAuthor(cs, g, u) == Some(c)
  {
    var k :| 0 <= k < |cs| && cs[k] == c;
    assert !(forall i :: 0 <= i < |cs| ==> !WrittenBy(g, cs[i], u));
  }

  /**
   * Appending a comment (what `addComment` does to a collection lacking it)
   * changes the lookup only for an author who had no comment yet.
   */
  lemma {:induction false} CommentFromAuthorAppend(cs: seq<CommentId>, g: Graph, u: UserId, c: CommentId)
    requires Loaded(cs, g) && c in g.comments
    ensures Loaded(cs + [c], g)
    ensures CommentFromAuthor(cs + [c], g, u)
         == if CommentFromAuthor(cs, g, u).Some? then CommentFromAuthor(cs, g, u)
            else if WrittenBy(g, c, u) then Some(c)
            else None
  {
    if |cs| > 0 {
      assert (cs + [c])[1..] == cs[1..] + [c];
      CommentFromAuthorAppend(cs[1..], g, u, c);
    }
  }

  /** Sum of the ratings, folded left to right from 0 as `array_reduce` does. */
  function SumRatings(cs: seq<CommentId>, g: Graph): int
    requires Loaded(cs, g)
  {
    if |cs| == 0 then 0 else SumRatings(cs[..|cs| - 1], g) + g.comments[cs[|cs| - 1]].rating
  }

  /**
   * The mean rating, exact: 0 for an Ad without comments, otherwise the
   * number that times the comment count gives the sum of the ratings.
   */
  function AverageRatings(ad: Ad, g: Graph): (r: real)
    requires Loaded(ad.comments, g)
    ensures |ad.comments| == 0 ==> r == 0.0
    ensures |ad.comments| > 0 ==> r * (|ad.comments| as real) == SumRatings(ad.comments, g) as real
  {
    var sum := SumRatings(ad.comments, g);
    if |ad.comments| > 0 then (sum as real) / (|ad.comments| as real) else 0.0
  }

  lemma {:induction false} SumRatingsConcat(a: seq<CommentId>, b: seq<CommentId>, g: Graph)
    requires Loaded(a, g) && Loaded(b, g)
    ensures Loaded(a + b, g)
    ensures SumRatings(a + b, g) == SumRatings(a, g) + SumRatings(b, g)
    decreases |b|
  {
    if |b| > 0 {
      var b' := b[..|b| - 1];
      assert (a + b)[..|a + b| - 1] == a + b';
      SumRatingsConcat(a, b', g);
    } else {
      assert a + b == a;
    }
  }

  /** Taking the comment at position `i` out of the sum subtracts exactly its rating. */
  lemma SumRatingsRemoveAt(b: seq<CommentId>, i: nat, g: Graph)
    requires Loaded(b, g) && i < |b|
    ensures Loaded(b[..i] + b[i + 1..], g)
    ensures SumRatings(b, g) == SumRatings(b[..i] + b[i + 1..], g) + g.comments[b[i]].rating
  {
    assert b == b[..i] + [b[i]] + b[i + 1..];
    SumRatingsConcat(b[..i], [b[i]], g);
    SumRatingsConcat(b[..i] + [b[i]], b[i + 1..], g);
    SumRatingsConcat(b[..i], b[i + 1..], g);
  }

  lemma RemoveAtMultiset(b: seq<CommentId>, i: nat)
    requires i < |b|
    ensures multiset(b[..i] + b[i + 1..]) == multiset(b) - multiset{b[i]}
  {
    assert b == b[..i] + [b[i]] + b[i + 1..];
  }

  /** The sum of the ratings does not depend on the order of the comments. */
  lemma {:induction false} SumRatingsPermutation(a: seq<CommentId>, b: seq<CommentId>, g: Graph)
    requires Loaded(a, g) && Loaded(b, g)
    requires multiset(a) == multiset(b)
    ensures SumRatings(a, g) == SumRatings(b, g)
    decreases |a|
  {
    if |a| > 0 {
      var a', x := a[..|a| - 1], a[|a| - 1];
      assert a == a' + [x];
      assert Loaded(a', g);
      assert SumRatings(a, g) == SumRatings(a', g) + g.comments[x].rating;
      assert multiset(a') == multiset(a) - multiset{x};
      assert x in b by {
        assert x in multiset(b);
      }
      var i := IndexOf(b, x);
      RemoveAtMultiset(b, i);
      SumRatingsRemoveAt(b, i, g);
      SumRatingsPermutation(a', b[..i] + b[i + 1..], g);
    } else {
      assert |b| == |multiset(b)| == 0;
    }
  }

  /** Reordering the comments leaves the average rating unchanged. */
  lemma AverageRatingsReorder(ad: Ad, g: Graph, comments: seq<CommentId>)
    requires Loaded(ad.comments, g)
    requires multiset(comments) == multiset(ad.comments)
    ensures Loaded(comments, g)
    ensures AverageRatings(ad.(comments := comments), g) == AverageRatings(ad, g)
  {
    assert forall c :: c in comments ==> c in multiset(ad.comments);
    SumRatingsPermutation(comments, ad.comments, g);
    assert |comments| == |multiset(comments)| == |ad.comments|;
  }

  lemma {:induction false} SumRatingsBounds(cs: seq<CommentId>, g: Graph, lo: int, hi: int)
    requires Loaded(cs, g)
    requires forall c :: c in cs ==> lo <= g.comments[c].rating <= hi
    ensures lo * |cs| <= SumRatings(cs, g) <= hi * |cs|
  {
    if |cs| > 0 {
      var n := |cs| - 1;
      SumRatingsBounds(cs[..n], g, lo, hi);
      assert cs[n] in cs;
      assert lo * |cs| == lo * n + lo && hi * |cs| == hi * n + hi;
    }
  }

  /** When every rating lies between `lo` and `hi`, so does the average. */
  lemma AverageRatingsBounds(ad: Ad, g: Graph, lo: int, hi: int)
    requires Loaded(ad.comments, g) && |ad.comments| > 0
    requires forall c :: c in ad.comments ==> lo <= g.comments[c].rating <= hi
    ensures lo as real <= AverageRatings(ad, g) <= hi as real
  {
    SumRatingsBounds(ad.comments, g, lo, hi);
    var n := |ad.comments| as real;
    var r := AverageRatings(ad, g);
    assert r * n >= (lo as real) * n;
    assert r * n <= (hi as real) * n;
  }
}
