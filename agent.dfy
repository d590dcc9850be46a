/** The fetch coordinator and the per-restaurant analysis of the
    recommender agent (`RecommendAgent`). Fetching writes to the store:
    each restaurant is upserted, its stored reviews are used when there are
    any, and otherwise it is scraped and a non-empty scrape replaces the
    stored reviews. The batch is fetched one restaurant after another, in
    list order, which is one of the orders the thread pool may produce. */
module Agent {
  import opened Wrappers
  import opened Text
  import opened Records
  import opened Store
  import opened ReviewScraper
  import opened Embedding

  /** The agent's scrape cap and cache lifetime. */
  const MaxReviews: int := 80
  const CacheDays: int := 30
  /** The reason given when the reason generator fails. */
  const FallbackReason: string := "系統暫時無法提供詳細理由，建議可先參考整體評價與評論內容。"

  /** The part of the store that fetching reads and writes. */
  datatype Snapshot = Snapshot(rows: map<string, Row>, reviews: map<string, seq<Review>>)

  /** A restaurant `fetch_single` works on: it has a name and a place_id. */
  predicate Fetchable(p: Place) {
    Truthy(p.name) && Truthy(p.placeId)
  }

  /** The result of one fetch and the store it leaves behind. */
  datatype Fetch = Fetch(result: Option<Batch>, after: Snapshot)

  /** `fetch_single` on a store snapshot. The upsert stamps the row with the
      current time, so the freshness test that follows always passes and
      any stored reviews are returned. */
  function FetchOne(s: Snapshot, p: Place, now: int, run: ScrapeRun): (f: Fetch)
    ensures !Fetchable(p) ==> f == Fetch(None, s)
    ensures Fetchable(p) ==> f.result.Some? && f.result.value.restaurant == p
    ensures Fetchable(p) ==> f.after.rows == s.rows[p.placeId.value := RowOf(p, now)]
  {
    if !Fetchable(p) then Fetch(None, s)
    else
      var pid := p.placeId.value;
      var rows := s.rows[pid := RowOf(p, now)];
      if pid in s.reviews && s.reviews[pid] != [] then
        Fetch(Some(Batch(p, s.reviews[pid])), Snapshot(rows, s.reviews))
      else
        var scraped := AllReviews(run, MaxReviews);
        Fetch(Some(Batch(p, scraped)),
              Snapshot(rows, if scraped != [] then s.reviews[pid := Normalized(scraped)] else s.reviews))
  }

  /** The scrape run of a restaurant, looked up by its place_id. */
  function RunOf(runs: string -> ScrapeRun, p: Place): ScrapeRun {
    runs(p.placeId.GetOr(""))
  }

  /** The batches fetched for some restaurants and the store afterwards. */
  datatype BatchFetch = BatchFetch(batches: seq<Batch>, after: Snapshot)

  /** `fetch_reviews_batch`: every restaurant fetched in turn, each fetch
      seeing the store the previous ones left; every result that is not
      `None` is kept, also one with no reviews. */
  function FetchAll(s: Snapshot, places: seq<Place>, now: int, runs: string -> ScrapeRun): (r: BatchFetch)
    ensures |r.batches| <= |places|
  {
    if places == [] then BatchFetch([], s)
    else
      var prev := FetchAll(s, places[..|places| - 1], now, runs);
      var last := places[|places| - 1];
      var f := FetchOne(prev.after, last, now, RunOf(runs, last));
      BatchFetch(prev.batches + (if f.result.Some? then [f.result.value] else []), f.after)
  }

  function SnapshotOf(db: Db): Snapshot
    reads db
  {
    Snapshot(db.rows, db.reviews)
  }

  /** `fetch_single`. */
  method FetchSingle(db: Db, p: Place, now: int, run: ScrapeRun) returns (result: Option<Batch>)
    requires db.Valid()
    modifies db
    ensures db.Valid()
    ensures result == FetchOne(old(SnapshotOf(db)), p, now, run).result
    ensures SnapshotOf(db) == FetchOne(old(SnapshotOf(db)), p, now, run).after
    ensures db.records == old(db.records)
  {
    if !Truthy(p.name) || !Truthy(p.placeId) {
      return None;
    }
    var pid := p.placeId.value;
    var written := db.UpsertRestaurantFromDict(p, now);
    StampedRowIsFresh(now, CacheDays);
    var cache := db.CachedReviewsIfFresh(pid, CacheDays, now);
    if cache.Some? {
      return Some(Batch(p, cache.value));
    }
    var reviews := GetAllReviews(run, MaxReviews);
    if reviews != [] {
      db.ReplaceReviewsInDb(pid, reviews);
    }
    result := Some(Batch(p, reviews));
  }

  /** `fetch_reviews_batch`, one restaurant after another. */
  method FetchReviewsBatch(db: Db, places: seq<Place>, now: int, runs: string -> ScrapeRun)
    returns (results: seq<Batch>)
    requires db.Valid()
    modifies db
    ensures db.Valid()
    ensures results == FetchAll(old(SnapshotOf(db)), places, now, runs).batches
    ensures SnapshotOf(db) == FetchAll(old(SnapshotOf(db)), places, now, runs).after
    ensures db.records == old(db.records)
  {
    results := [];
    for i := 0 to |places|
      invariant db.Valid()
      invariant results == FetchAll(old(SnapshotOf(db)), places[..i], now, runs).batches
      invariant SnapshotOf(db) == FetchAll(old(SnapshotOf(db)), places[..i], now, runs).after
      invariant db.records == old(db.records)
    {
      assert places[..i + 1][..i] == places[..i];
      var res := FetchSingle(db, places[i], now, RunOf(runs, places[i]));
      if res.Some? {
        results := results + [res.value];
      }
    }
    assert places[..|places|] == places;
  }

  // --------------------------------------------------------- analysis

  /** The collaborators of `analyze_results`: the review analysis (with its
      models), whether it raises on some reviews, and the reason generator,
      which sees the name, the summary and the wishes and fails with `None`. */
  datatype Models = Models(
    embedderLoaded: bool,
    sim: (string, string) -> real,
    analyzer: Analyzer,
    raises: seq<Review> -> bool,
    reason: (string, string, seq<string>) -> Option<string>)

  /** The analysis `analyze_results` attaches to one batch: zeros and an
      empty summary when the review analysis raises, and the fallback reason
      when the reason cannot be generated. */
  function AnalysisOf(b: Batch, weak: seq<string>, models: Models): Analysis {
    var rep := if models.raises(b.reviews) then Report("", 0.0, 0.0)
               else AnalyzeReviews(b.reviews, weak, models.embedderLoaded, models.sim, models.analyzer);
    var why := if b.restaurant.name.None? then FallbackReason
               else models.reason(b.restaurant.name.value, rep.summary, weak).GetOr(FallbackReason);
    Analysis(rep.summary, rep.matchScore, rep.positiveRate, why)
  }

  /** The entries `analyze_results` produces: one per batch, in batch
      order, the restaurant with its analysis attached. */
  function Analyzed(batches: seq<Batch>, weak: seq<string>, models: Models): (r: seq<Entry>)
    ensures |r| == |batches|
    ensures forall k :: 0 <= k < |batches| ==>
      r[k] == Entry(batches[k].restaurant, Some(AnalysisOf(batches[k], weak, models)))
  {
    if batches == [] then []
    else
      var last := batches[|batches| - 1];
      Analyzed(batches[..|batches| - 1], weak, models) + [Entry(last.restaurant, Some(AnalysisOf(last, weak, models)))]
  }

  /** `analyze_results`. */
  method AnalyzeResults(batches: seq<Batch>, weak: seq<string>, models: Models) returns (output: seq<Entry>)
    ensures output == Analyzed(batches, weak, models)
  {
    output := [];
    for i := 0 to |batches|
      invariant output == Analyzed(batches[..i], weak, models)
    {
      assert batches[..i + 1][..i] == batches[..i];
      var b := batches[i];
      var rep: Report;
      if models.raises(b.reviews) {
        rep := Report("", 0.0, 0.0);
      } else {
        rep := AnalyzeReviews(b.reviews, weak, models.embedderLoaded, models.sim, models.analyzer);
      }
      var why := FallbackReason;
      if b.restaurant.name.Some? {
        var generated := models.reason(b.restaurant.name.value, rep.summary, weak);
        if generated.Some? {
          why := generated.value;
        }
      }
      output := output + [Entry(b.restaurant, Some(Analysis(rep.summary, rep.matchScore, rep.positiveRate, why)))];
    }
    assert batches[..|batches|] == batches;
  }

  // ----------------------------------------------------------- properties

  /** The restaurants of a list that `fetch_single` works on, in order. */
  function FetchableOf(places: seq<Place>): (r: seq<Place>)
    ensures |r| <= |places|
    ensures forall p :: p in r ==> p in places && Fetchable(p)
  {
    if places == [] then []
    else FetchableOf(places[..|places| - 1]) + (if Fetchable(places[|places| - 1]) then [places[|places| - 1]] else [])
  }

  function RestaurantsOf(batches: seq<Batch>): (r: seq<Place>)
    ensures |r| == |batches|
    ensures forall k :: 0 <= k < |batches| ==> r[k] == batches[k].restaurant
  {
    if batches == [] then [] else RestaurantsOf(batches[..|batches| - 1]) + [batches[|batches| - 1].restaurant]
  }

  /** A batch fetch yields exactly the restaurants with a name and a
      place_id, in list order, whatever their reviews. */
  lemma {:induction false} FetchAllKeepsFetchable(s: Snapshot, places: seq<Place>, now: int, runs: string -> ScrapeRun)
    ensures RestaurantsOf(FetchAll(s, places, now, runs).batches) == FetchableOf(places)
  {
    if places != [] {
      var init := places[..|places| - 1];
      FetchAllKeepsFetchable(s, init, now, runs);
      var prev := FetchAll(s, init, now, runs);
      var last := places[|places| - 1];
      var f := FetchOne(prev.after, last, now, RunOf(runs, last));
      var extra := if f.result.Some? then [f.result.value] else [];
      FetchOneResult(prev.after, last, now, RunOf(runs, last));
      assert RestaurantsOf(extra) == if Fetchable(last) then [last] else [];
      RestaurantsAppend(prev.batches, extra);
    }
  }

  /** One fetch yields a batch exactly for a restaurant with a name and a
      place_id, and the batch is that restaurant's. */
  lemma FetchOneResult(s: Snapshot, p: Place, now: int, run: ScrapeRun)
    ensures FetchOne(s, p, now, run).result.Some? <==> Fetchable(p)
    ensures FetchOne(s, p, now, run).result.Some? ==> FetchOne(s, p, now, run).result.value.restaurant == p
  {
  }

  lemma RestaurantsAppend(a: seq<Batch>, b: seq<Batch>)
    ensures RestaurantsOf(a + b) == RestaurantsOf(a) + RestaurantsOf(b)
  {
    var l, r := RestaurantsOf(a + b), RestaurantsOf(a) + RestaurantsOf(b);
    assert |l| == |r|;
    forall k | 0 <= k < |l| ensures l[k] == r[k] {
      if k < |a| {
        assert (a + b)[k] == a[k];
      } else {
        assert (a + b)[k] == b[k - |a|];
      }
    }
  }

  /** A restaurant with stored reviews is served from the store: the scrape
      run plays no part, and the stored reviews stay as they were. */
  lemma StoredReviewsAreServed(s: Snapshot, p: Place, now: int, run1: ScrapeRun, run2: ScrapeRun)
    requires Fetchable(p) && p.placeId.value in s.reviews && s.reviews[p.placeId.value] != []
    ensures FetchOne(s, p, now, run1) == FetchOne(s, p, now, run2)
    ensures FetchOne(s, p, now, run1).result == Some(Batch(p, s.reviews[p.placeId.value]))
    ensures FetchOne(s, p, now, run1).after.reviews == s.reviews
  {
  }

  /** A fetch stamps the restaurant's row with the current time and touches
      no other row; reviews change only for that restaurant, and only when
      the store had none and the scrape found some. */
  lemma FetchOneFrame(s: Snapshot, p: Place, now: int, run: ScrapeRun)
    requires Fetchable(p)
    ensures var f := FetchOne(s, p, now, run);
            && f.after.rows == s.rows[p.placeId.value := RowOf(p, now)]
            && f.after.rows[p.placeId.value].lastUpdate == Some(now)
            && (forall pid :: pid != p.placeId.value && pid in s.reviews ==>
                  pid in f.after.reviews && f.after.reviews[pid] == s.reviews[pid])
            && (f.after.reviews != s.reviews ==>
                 && (p.placeId.value !in s.reviews || s.reviews[p.placeId.value] == [])
                 && AllReviews(run, MaxReviews) != [])
  {
  }

  /** Every stored review list holds at most `MaxReviews` reviews. */
  predicate Bounded(s: Snapshot) {
    forall pid :: pid in s.reviews ==> |s.reviews[pid]| <= MaxReviews
  }

  /** A store whose review lists are within the scrape cap stays so after a
      batch fetch, and every fetched batch is within the cap too. */
  lemma {:induction false} FetchAllStaysBounded(s: Snapshot, places: seq<Place>, now: int, runs: string -> ScrapeRun)
    requires Bounded(s)
    ensures Bounded(FetchAll(s, places, now, runs).after)
    ensures forall b :: b in FetchAll(s, places, now, runs).batches ==> |b.reviews| <= MaxReviews
  {
    if places != [] {
      var init := places[..|places| - 1];
      FetchAllStaysBounded(s, init, now, runs);
      var prev := FetchAll(s, init, now, runs);
      var last := places[|places| - 1];
      var run := RunOf(runs, last);
      if Fetchable(last) && !(last.placeId.value in prev.after.reviews && prev.after.reviews[last.placeId.value] != []) {
        ScrapedCount(run);
      }
    }
  }

  /** A scrape run yields at most `MaxReviews` reviews. */
  lemma ScrapedCount(run: ScrapeRun)
    ensures |AllReviews(run, MaxReviews)| <= MaxReviews
  {
    if run.Loaded? {
      ReviewScraper.ScrapedCount(run.elements, MaxReviews);
    }
  }

  /** A failing analysis gives zero scores and an empty summary, and a
      failing reason generator the fallback reason. */
  lemma FailuresGiveDefaults(b: Batch, weak: seq<string>, models: Models)
    ensures models.raises(b.reviews) ==>
      && AnalysisOf(b, weak, models).summary == ""
      && AnalysisOf(b, weak, models).matchScore == 0.0
      && AnalysisOf(b, weak, models).positiveRate == 0.0
    ensures b.restaurant.name.Some? && models.reason(b.restaurant.name.value, AnalysisOf(b, weak, models).summary, weak).None? ==>
      AnalysisOf(b, weak, models).reason == FallbackReason
  {
  }

  /** With similarities in [-1, 1], every attached match score lies in
      [-1, 1] and every positive rate in [0, 1]. */
  lemma AnalysisBounds(b: Batch, weak: seq<string>, models: Models)
    requires forall x, y :: -1.0 <= models.sim(x, y) <= 1.0
    ensures -1.0 <= AnalysisOf(b, weak, models).matchScore <= 1.0
    ensures 0.0 <= AnalysisOf(b, weak, models).positiveRate <= 1.0
  {
    if !models.raises(b.reviews) {
      ReportedPositiveRateBounds(b.reviews, weak, models.embedderLoaded, models.sim, models.analyzer);
      if models.embedderLoaded {
        MatchScoreBounds(b.reviews, weak, models.sim, models.analyzer);
      }
    }
  }
}
