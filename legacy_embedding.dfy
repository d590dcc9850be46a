/** The review analysis of the first version of the agent: the same
    computation as the recommender's, without a fallback for a missing
    model, and with a three-text summary. */
module LegacyEmbedding {
  import opened Wrappers
  import opened Text
  import opened Records
  import opened Sorting
  import opened Embedding

  /** How many texts the first version's summary holds at most. */
  const LegacySummarySize: int := 3

  /** The first version's `analyze_reviews`; both models are always loaded. */
  function AnalyzeReviews(reviews: seq<Review>, prefs: seq<string>,
                          sim: (string, string) -> real, labelOf: string -> string): (r: Report)
    ensures reviews == [] ==> r == Report(NoReviewsSummary, 0.0, 0.0)
  {
    if reviews == [] then Report(NoReviewsSummary, 0.0, 0.0)
    else
      var texts := ReviewTexts(reviews);
      var pref := PreferenceText(prefs);
      var key := (t: string) => sim(pref, t);
      Report(Join(SummarySeparator, TopTexts(texts, key, LegacySummarySize)),
             Mean(Similarities(pref, texts, sim)),
             PositiveRate(Take(texts, SentimentLimit), labelOf))
  }

  /** `encode_reviews_to_vector` of the first version: none when no review
      has a text. */
  function EncodeReviewsToVector(reviews: seq<Review>): (r: Option<seq<string>>)
    ensures r.None? <==> forall rv :: rv in reviews ==> !Truthy(rv.text)
    ensures r.Some? ==> r.value == ReviewTexts(reviews)
  {
    Embedding.EncodeReviewsToVector(reviews)
  }

  /** The three-text summary lists the first three texts of the ten-text
      one, and the scores are the recommender's with both models loaded. */
  lemma AgreesWithRecommender(reviews: seq<Review>, prefs: seq<string>,
                              sim: (string, string) -> real, labelOf: string -> string)
    requires reviews != []
    ensures var texts := ReviewTexts(reviews);
            var key := (t: string) => sim(PreferenceText(prefs), t);
            TopTexts(texts, key, LegacySummarySize) == Take(TopTexts(texts, key, SummarySize), LegacySummarySize)
    ensures AnalyzeReviews(reviews, prefs, sim, labelOf).matchScore
         == Embedding.AnalyzeReviews(reviews, prefs, true, sim, Labels(labelOf)).matchScore
    ensures AnalyzeReviews(reviews, prefs, sim, labelOf).positiveRate
         == Embedding.AnalyzeReviews(reviews, prefs, true, sim, Labels(labelOf)).positiveRate
  {
    var texts := ReviewTexts(reviews);
    var key := (t: string) => sim(PreferenceText(prefs), t);
    var sorted := SortDesc(texts, key);
    assert Take(sorted, LegacySummarySize) == Take(Take(sorted, SummarySize), LegacySummarySize);
  }

  /** The reported scores lie in [0, 1] for the positive rate, and in
      [-1, 1] for the match score when the similarities do. */
  lemma ScoreBounds(reviews: seq<Review>, prefs: seq<string>,
                    sim: (string, string) -> real, labelOf: string -> string)
    requires forall a, b :: -1.0 <= sim(a, b) <= 1.0
    ensures 0.0 <= AnalyzeReviews(reviews, prefs, sim, labelOf).positiveRate <= 1.0
    ensures -1.0 <= AnalyzeReviews(reviews, prefs, sim, labelOf).matchScore <= 1.0
  {
    if reviews != [] {
      AgreesWithRecommender(reviews, prefs, sim, labelOf);
      MatchScoreBounds(reviews, prefs, sim, Labels(labelOf));
      ReportedPositiveRateBounds(reviews, prefs, true, sim, Labels(labelOf));
    }
  }
}
