/** The ranking step of the recommender: a weighted score per analysed
    restaurant, a small bonus when the review summary mentions one of the
    user's free-text wishes, a stable sort from best to worst and the first
    three as the recommendations. */
module Ranking {
  import opened Wrappers
  import opened Text
  import opened Records
  import opened Sorting

  const MatchWeight: real := 0.7
  const PositiveWeight: real := 0.2
  const RatingWeight: real := 0.1
  /** The rating scale: ratings run up to five stars. */
  const MaxRating: real := 5.0
  /** Added when the summary mentions a wish. */
  const Bonus: real := 0.05
  /** How many ranked restaurants are recommended. */
  const TopCount: int := 3

  /** The scored fields of an entry; a restaurant without an analysis
      scores 0 on each of them, as a missing key does. */
  function MatchOf(e: Entry): real {
    if e.analysis.Some? then e.analysis.value.matchScore else 0.0
  }

  function PositiveOf(e: Entry): real {
    if e.analysis.Some? then e.analysis.value.positiveRate else 0.0
  }

  function SummaryOf(e: Entry): string {
    if e.analysis.Some? then e.analysis.value.summary else ""
  }

  function RatingOf(e: Entry): real {
    e.place.rating.GetOr(0.0)
  }

  /** The weighted sum of match score, positive rate and rating. */
  function BaseScore(e: Entry): real {
    MatchWeight * MatchOf(e) + PositiveWeight * PositiveOf(e) + RatingWeight * (RatingOf(e) / MaxRating)
  }

  /** Some wish occurs in the lower-cased summary. */
  predicate Mentions(e: Entry, weak: seq<string>) {
    ContainsAny(Lower(SummaryOf(e)), weak)
  }

  /** The score an entry is ranked by. */
  function Score(e: Entry, weak: seq<string>): real {
    BaseScore(e) + (if Mentions(e, weak) then Bonus else 0.0)
  }

  /** The sort key for a given list of wishes. */
  function KeyFor(weak: seq<string>): Entry -> real {
    (e: Entry) => Score(e, weak)
  }

  /** The entries from best to worst score, ties in input order. */
  function Rank(analyzed: seq<Entry>, weak: seq<string>): (r: seq<Entry>)
    ensures |r| == |analyzed|
  {
    SortDesc(analyzed, KeyFor(weak))
  }

  /** What `ranking_node` hands on: the full ranking and its first three. */
  datatype Ranked = Ranked(ranked: seq<Entry>, recommendations: seq<Entry>)

  function RankingOf(analyzed: seq<Entry>, weak: seq<string>): (r: Ranked)
    ensures analyzed == [] ==> r == Ranked([], [])
  {
    if analyzed == [] then Ranked([], [])
    else
      var ranked := Rank(analyzed, weak);
      Ranked(ranked, Take(ranked, TopCount))
  }

  // ----------------------------------------------------------- properties

  /** The ranking holds the analysed entries, each as often as before. */
  lemma RankIsPermutation(analyzed: seq<Entry>, weak: seq<string>)
    ensures multiset(Rank(analyzed, weak)) == multiset(analyzed)
  {
    SortDescPermutes(analyzed, KeyFor(weak));
  }

  /** No entry scores more than the one before it. */
  lemma RankIsOrdered(analyzed: seq<Entry>, weak: seq<string>)
    ensures forall i, j :: 0 <= i < j < |Rank(analyzed, weak)| ==>
      Score(Rank(analyzed, weak)[i], weak) >= Score(Rank(analyzed, weak)[j], weak)
  {
    var r := Rank(analyzed, weak);
    SortDescSorted(analyzed, KeyFor(weak));
    assert NonIncreasing(r, KeyFor(weak));
    forall i, j | 0 <= i < j < |r| ensures Score(r[i], weak) >= Score(r[j], weak) {
      assert KeyFor(weak)(r[i]) >= KeyFor(weak)(r[j]);
    }
  }

  /** Entries with equal scores keep the order they had: the sort is stable. */
  lemma RankKeepsTies(analyzed: seq<Entry>, weak: seq<string>, s: real)
    ensures WithKey(Rank(analyzed, weak), KeyFor(weak), s) == WithKey(analyzed, KeyFor(weak), s)
  {
    SortDescStable(analyzed, KeyFor(weak), s);
  }

  /** The recommendations are the first three of the ranking (fewer when
      fewer were analysed), and none of the rest scores higher than any of
      them. */
  lemma RecommendationsAreTheBest(analyzed: seq<Entry>, weak: seq<string>)
    ensures var r := RankingOf(analyzed, weak);
            && |r.ranked| == |analyzed|
            && |r.recommendations| == Min(TopCount, |analyzed|)
            && r.recommendations == r.ranked[..|r.recommendations|]
            && forall x, y :: x in r.recommendations && y in r.ranked[|r.recommendations|..] ==>
                 Score(x, weak) >= Score(y, weak)
  {
    if analyzed != [] {
      var ranked := Rank(analyzed, weak);
      var m := Min(TopCount, |analyzed|);
      assert Take(ranked, TopCount) == ranked[..m];
      SortDescTopK(analyzed, KeyFor(weak), m);
      forall x, y | x in ranked[..m] && y in ranked[m..] ensures Score(x, weak) >= Score(y, weak) {
        assert KeyFor(weak)(x) >= KeyFor(weak)(y);
      }
    }
  }

  /** With a match score in [-1, 1], a positive rate in [0, 1] and a rating
      in [0, 5], the score lies in [-0.7, 1.05]. */
  lemma ScoreBounds(e: Entry, weak: seq<string>)
    requires -1.0 <= MatchOf(e) <= 1.0 && 0.0 <= PositiveOf(e) <= 1.0 && 0.0 <= RatingOf(e) <= MaxRating
    ensures -0.7 <= Score(e, weak) <= 1.05
  {
  }

  /** A wish found in the lower-cased summary adds exactly the bonus. */
  lemma MentionEarnsBonus(e: Entry, weak: seq<string>, w: string, i: int)
    requires w in weak && 0 <= i <= |SummaryOf(e)| && OccursAt(Lower(SummaryOf(e)), w, i)
    ensures Score(e, weak) == BaseScore(e) + Bonus
  {
  }

  /** More wishes never lower a score, and no wishes means no bonus. */
  lemma MoreWishesNeverLower(e: Entry, weak: seq<string>, more: seq<string>)
    ensures Score(e, weak) <= Score(e, weak + more)
    ensures Score(e, []) == BaseScore(e)
  {
    if Mentions(e, weak) {
      var w :| w in weak && Contains(Lower(SummaryOf(e)), w);
      assert w in weak + more;
    }
  }

  /** An empty wish occurs in every summary, even the empty one, so it gives
      every restaurant the bonus. */
  lemma EmptyWishAlwaysEarnsBonus(e: Entry, weak: seq<string>)
    requires "" in weak
    ensures Score(e, weak) == BaseScore(e) + Bonus
  {
    assert OccursAt(Lower(SummaryOf(e)), "", 0);
  }
}
