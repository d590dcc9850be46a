/** The review analysis of the recommender (`analyze_reviews` and
    `encode_reviews_to_vector`). The embedding model is reduced to the
    similarity it assigns to a preference text and a review text, and the
    sentiment model to the label it gives a review text; both are
    parameters. */
module Embedding {
  import opened Wrappers
  import opened Text
  import opened Records
  import opened Sorting

  /** The summary when there is nothing to analyse. */
  const NoReviewsSummary: string := "無評論資料"
  /** The preference text used when the user stated none. */
  const DefaultPreference: string := "一般用餐體驗"
  /** The separator of the summary's texts. */
  const SummarySeparator: string := " / "
  /** How many texts the sentiment model classifies at most. */
  const SentimentLimit: int := 50
  /** How many texts the summary holds at most. */
  const SummarySize: int := 10
  /** How many texts the summary holds when no embedder is loaded. */
  const FallbackSummarySize: int := 3

  /** What `analyze_reviews` returns (before rounding to three decimals). */
  datatype Report = Report(summary: string, matchScore: real, positiveRate: real)

  /** The sentiment model: not loaded, raising when called, or giving a
      label to each text. */
  datatype Analyzer = Missing | Failing | Labels(labelOf: string -> string)

  /** The texts that get analysed: those of the reviews that have one and
      where it is not empty, in review order. */
  function ReviewTexts(reviews: seq<Review>): (texts: seq<string>)
    ensures |texts| <= |reviews|
    ensures forall t :: t in texts ==> t != "" && exists r :: r in reviews && r.text == Some(t)
    ensures texts == [] <==> forall r :: r in reviews ==> !Truthy(r.text)
  {
    if reviews == [] then []
    else
      var init := ReviewTexts(reviews[..|reviews| - 1]);
      var last := reviews[|reviews| - 1];
      assert forall r :: r in reviews[..|reviews| - 1] ==> r in reviews;
      if Truthy(last.text) then init + [last.text.value] else init
  }

  /** The preference text that is embedded: the preferences joined by a
      full-width comma, or the default when there are none. */
  function PreferenceText(prefs: seq<string>): (r: string)
    ensures prefs == [] ==> r == DefaultPreference
    ensures |prefs| == 1 ==> r == prefs[0]
  {
    if prefs == [] then DefaultPreference else Join("，", prefs)
  }

  function Sum(xs: seq<real>): real {
    if xs == [] then 0.0 else Sum(xs[..|xs| - 1]) + xs[|xs| - 1]
  }

  /** The mean of the scores, or 0.0 for none. */
  function Mean(xs: seq<real>): real {
    if xs == [] then 0.0 else Sum(xs) / (|xs| as real)
  }

  /** The similarity of each text to the preference text. */
  function Similarities(pref: string, texts: seq<string>, sim: (string, string) -> real): (r: seq<real>)
    ensures |r| == |texts|
    ensures forall i :: 0 <= i < |texts| ==> r[i] == sim(pref, texts[i])
  {
    if texts == [] then [] else Similarities(pref, texts[..|texts| - 1], sim) + [sim(pref, texts[|texts| - 1])]
  }

  /** Whether a label counts as positive: it starts with "pos" once lower-cased. */
  predicate IsPositive(tag: string) {
    StartsWith(Lower(tag), "pos")
  }

  /** How many of the texts get a positive label. */
  function PositiveCount(texts: seq<string>, labelOf: string -> string): (n: nat)
    ensures n <= |texts|
  {
    if texts == [] then 0
    else PositiveCount(texts[..|texts| - 1], labelOf) + (if IsPositive(labelOf(texts[|texts| - 1])) then 1 else 0)
  }

  /** The share of positive labels among the classified texts, 0.0 when
      none was classified. */
  function PositiveRate(classified: seq<string>, labelOf: string -> string): real {
    if classified == [] then 0.0
    else (PositiveCount(classified, labelOf) as real) / (|classified| as real)
  }

  /** The positive rate `analyze_reviews` reports: 0.5 when the model is
      missing or raises, else the share among the first fifty texts. */
  function SentimentRate(texts: seq<string>, analyzer: Analyzer): real {
    match analyzer
    case Missing => 0.5
    case Failing => 0.5
    case Labels(labelOf) => PositiveRate(Take(texts, SentimentLimit), labelOf)
  }

  /** The texts of the summary: the `k` most similar ones, most similar
      first. */
  function TopTexts(texts: seq<string>, key: string -> real, k: int): seq<string> {
    Take(SortDesc(texts, key), k)
  }

  /** `analyze_reviews` of the recommender. */
  function AnalyzeReviews(reviews: seq<Review>, prefs: seq<string>, embedderLoaded: bool,
                          sim: (string, string) -> real, analyzer: Analyzer): (r: Report)
    ensures reviews == [] ==> r == Report(NoReviewsSummary, 0.0, 0.0)
    ensures reviews != [] && !embedderLoaded ==>
      r == Report(Join(SummarySeparator, Take(ReviewTexts(reviews), FallbackSummarySize)), 0.5, 0.5)
  {
    if reviews == [] then Report(NoReviewsSummary, 0.0, 0.0)
    else
      var texts := ReviewTexts(reviews);
      if !embedderLoaded then Report(Join(SummarySeparator, Take(texts, FallbackSummarySize)), 0.5, 0.5)
      else
        var pref := PreferenceText(prefs);
        var sims := Similarities(pref, texts, sim);
        var key := (t: string) => sim(pref, t);
        Report(Join(SummarySeparator, TopTexts(texts, key, SummarySize)), Mean(sims), SentimentRate(texts, analyzer))
  }

  /** `encode_reviews_to_vector`: none when no review has a text, else the
      texts that get embedded. */
  function EncodeReviewsToVector(reviews: seq<Review>): (r: Option<seq<string>>)
    ensures r.None? <==> forall rv :: rv in reviews ==> !Truthy(rv.text)
    ensures r.Some? ==> r.value == ReviewTexts(reviews) && r.value != []
  {
    var texts := ReviewTexts(reviews);
    if texts == [] then None else Some(texts)
  }

  // ----------------------------------------------------------- properties

  lemma {:induction false} SumBounds(xs: seq<real>, lo: real, hi: real)
    requires forall i :: 0 <= i < |xs| ==> lo <= xs[i] <= hi
    ensures (|xs| as real) * lo <= Sum(xs) <= (|xs| as real) * hi
  {
    if xs != [] {
      SumBounds(xs[..|xs| - 1], lo, hi);
    }
  }

  /** The mean lies within any bounds every score keeps. */
  lemma MeanBounds(xs: seq<real>, lo: real, hi: real)
    requires xs != []
    requires forall i :: 0 <= i < |xs| ==> lo <= xs[i] <= hi
    ensures lo <= Mean(xs) <= hi
  {
    SumBounds(xs, lo, hi);
    var n := |xs| as real;
    assert n * lo <= Sum(xs) <= n * hi;
    assert lo == (n * lo) / n && hi == (n * hi) / n;
  }

  /** With similarities in [-1, 1], as cosine similarities are, the match
      score is in [-1, 1] too, and it is 0.0 when no text has a score. */
  lemma MatchScoreBounds(reviews: seq<Review>, prefs: seq<string>, sim: (string, string) -> real, analyzer: Analyzer)
    requires forall a, b :: -1.0 <= sim(a, b) <= 1.0
    ensures -1.0 <= AnalyzeReviews(reviews, prefs, true, sim, analyzer).matchScore <= 1.0
    ensures reviews != [] && ReviewTexts(reviews) == [] ==> AnalyzeReviews(reviews, prefs, true, sim, analyzer).matchScore == 0.0
  {
    if reviews != [] {
      var sims := Similarities(PreferenceText(prefs), ReviewTexts(reviews), sim);
      if sims != [] {
        MeanBounds(sims, -1.0, 1.0);
      }
    }
  }

  /** The share of positive labels lies in [0, 1]. */
  lemma PositiveRateBounds(classified: seq<string>, labelOf: string -> string)
    ensures 0.0 <= PositiveRate(classified, labelOf) <= 1.0
  {
    if classified != [] {
      var n := |classified| as real;
      var c := PositiveCount(classified, labelOf) as real;
      assert 0.0 <= c <= n;
      assert (c / n) * n == c;
    }
  }

  /** The reported positive rate lies in [0, 1] whatever the model does. */
  lemma ReportedPositiveRateBounds(reviews: seq<Review>, prefs: seq<string>, embedderLoaded: bool,
                                   sim: (string, string) -> real, analyzer: Analyzer)
    ensures 0.0 <= AnalyzeReviews(reviews, prefs, embedderLoaded, sim, analyzer).positiveRate <= 1.0
  {
    if reviews != [] && embedderLoaded && analyzer.Labels? {
      PositiveRateBounds(Take(ReviewTexts(reviews), SentimentLimit), analyzer.labelOf);
    }
  }

  /** Every text gets a positive label exactly when the rate is 1, and none
      does exactly when it is 0, for a non-empty classified list. */
  lemma {:induction false} PositiveCountExtremes(classified: seq<string>, labelOf: string -> string)
    ensures PositiveCount(classified, labelOf) == |classified| <==> forall t :: t in classified ==> IsPositive(labelOf(t))
    ensures PositiveCount(classified, labelOf) == 0 <==> forall t :: t in classified ==> !IsPositive(labelOf(t))
  {
    if classified != [] {
      var init := classified[..|classified| - 1];
      PositiveCountExtremes(init, labelOf);
      assert classified == init + [classified[|classified| - 1]];
    }
  }

  /** The summary texts: at most `k`, each taken from the texts as many
      times as it occurs there at most, most similar first, and none of the
      texts left out is more similar than one taken. */
  lemma TopTextsSpec(texts: seq<string>, key: string -> real, k: nat)
    ensures |TopTexts(texts, key, k)| == Min(k, |texts|)
    ensures multiset(TopTexts(texts, key, k)) <= multiset(texts)
    ensures NonIncreasing(TopTexts(texts, key, k), key)
    ensures forall x, y :: x in TopTexts(texts, key, k) && y in multiset(texts) - multiset(TopTexts(texts, key, k))
                           ==> key(x) >= key(y)
  {
    var sorted := SortDesc(texts, key);
    var m := Min(k, |texts|);
    var top := TopTexts(texts, key, k);
    var rest := sorted[m..];
    assert top == sorted[..m];
    SortDescPermutes(texts, key);
    SortDescSorted(texts, key);
    SortDescTopK(texts, key, m);
    SplitMultiset(sorted, m);
    assert multiset(texts) - multiset(top) == multiset(rest);
    forall x, y | x in top && y in multiset(texts) - multiset(top) ensures key(x) >= key(y) {
      assert y in rest;
    }
  }

  lemma SplitMultiset<T>(s: seq<T>, m: nat)
    requires m <= |s|
    ensures multiset(s) == multiset(s[..m]) + multiset(s[m..])
  {
    assert s == s[..m] + s[m..];
  }
}
