/** The first version of the agent: a straight pipeline from a request that
    already names a location and a category, through the place search, the
    review fetch (three restaurants at a time, with a file cache of reviews
    that stays valid for 30 days), the analysis and a ranking without the
    wish bonus, to a reply; any shortfall goes to a retry node that shows a
    message. The file system holding the review cache is the agent's state;
    the other files it writes are not modelled. */
module LegacyAgent {
  import opened Wrappers
  import opened Text
  import opened Records
  import opened Sorting
  import opened Ranking
  import opened LegacyPlaceInfo
  import PlaceInfo
  import Store
  import ReviewScraper
  import LegacyReviewScraper
  import LegacyEmbedding

  /** A cached review file is used while it is at most this many days old. */
  const CacheDays: int := 30
  /** How many restaurants are fetched together. */
  const ChunkSize: int := 3
  /** How many results the place search asks for. */
  const SearchSize: int := 10

  const LocationMissingMessage: string := "請輸入明確地點（例如：信義區、市府站）。"
  const CategoryMissingMessage: string := "請告訴我想吃什麼（例如：火鍋、壽司、咖啡廳）。"
  const TooLargeMessage: string := "地點範圍過大，請縮小搜尋範圍（例如：台北信義區，而非整個台北市）。"
  const NoRestaurantsMessage: string := "找不到相關餐廳，請嘗試其他區域或主題。"
  const FetchFailedMessage: string := "評論擷取失敗，請稍後再試。"
  const DefaultRetryMessage: string := "請重新輸入地點與餐廳主題。"
  const Medals: seq<string> := ["🥇", "🥈", "🥉"]

  // --------------------------------------------------------- review cache

  /** A cached review file: its content and its modification time, in
      seconds. */
  datatype CacheFile = CacheFile(reviews: seq<Review>, mtime: int)

  /** The file a restaurant's reviews are cached under, named after its
      place_id as printed (a missing one prints "None"). */
  function CacheKey(r: Place): string {
    IdText(r.placeId)
  }

  /** `check_cache`: the cached reviews of a file at most 30 whole days old. */
  function Cached(files: map<string, CacheFile>, key: string, now: int): (r: Option<seq<Review>>)
    ensures r.Some? ==> key in files && r.value == files[key].reviews
  {
    if key in files && Store.AgeDays(now, files[key].mtime) <= CacheDays then Some(files[key].reviews)
    else None
  }

  /** What fetching one restaurant yields, and the cache after it. */
  datatype Single = Single(reviews: seq<Review>, files: map<string, CacheFile>)

  /** `fetch_single`: a non-empty cache hit is served as it is; otherwise
      the reviews are scraped (at most 100) and saved when there are any. */
  function FetchOne(files: map<string, CacheFile>, r: Place, now: int, runs: string -> ReviewScraper.ScrapeRun): (one: Single)
    ensures one.reviews == [] ==> one.files == files
    ensures one.files != files ==> one.files == files[CacheKey(r) := CacheFile(one.reviews, now)]
  {
    var key := CacheKey(r);
    var cache := Cached(files, key, now);
    if cache.Some? && cache.value != [] then Single(cache.value, files)
    else
      var reviews := LegacyReviewScraper.AllReviews(runs(key), LegacyReviewScraper.DefaultMaxReviews);
      Single(reviews, if reviews != [] then files[key := CacheFile(reviews, now)] else files)
  }

  /** The batches gathered from some restaurants, and the cache after them. */
  datatype Gathered = Gathered(results: seq<Batch>, files: map<string, CacheFile>)

  /** Fetching restaurants one after another, keeping those with reviews. */
  function FetchAll(files: map<string, CacheFile>, rs: seq<Place>, now: int,
                    runs: string -> ReviewScraper.ScrapeRun): (g: Gathered)
    ensures |g.results| <= |rs|
  {
    if rs == [] then Gathered([], files)
    else
      var before := FetchAll(files, rs[..|rs| - 1], now, runs);
      var last := rs[|rs| - 1];
      var one := FetchOne(before.files, last, now, runs);
      Gathered(before.results + (if one.reviews != [] then [Batch(last, one.reviews)] else []), one.files)
  }

  /** `RecommendAgent`: the review directory is its state. */
  class RecommendAgent {
    var reviewFiles: map<string, CacheFile>

    constructor (files: map<string, CacheFile>)
      ensures reviewFiles == files
    {
      reviewFiles := files;
    }

    function CheckCache(key: string, now: int): Option<seq<Review>>
      reads this
    {
      Cached(reviewFiles, key, now)
    }

    /** `fetch_single`. */
    method FetchSingle(r: Place, now: int, runs: string -> ReviewScraper.ScrapeRun) returns (reviews: seq<Review>)
      modifies this
      ensures Single(reviews, reviewFiles) == FetchOne(old(reviewFiles), r, now, runs)
    {
      var key := CacheKey(r);
      var cache := CheckCache(key, now);
      if cache.Some? && cache.value != [] {
        return cache.value;
      }
      reviews := LegacyReviewScraper.GetAllReviews(runs(key), LegacyReviewScraper.DefaultMaxReviews);
      if reviews != [] {
        reviewFiles := reviewFiles[key := CacheFile(reviews, now)];
      }
    }

    /** `fetch_reviews_batch`, with the pool's jobs taken in list order. */
    method FetchReviewsBatch(batch: seq<Place>, now: int, runs: string -> ReviewScraper.ScrapeRun)
      returns (results: seq<Batch>)
      modifies this
      ensures Gathered(results, reviewFiles) == FetchAll(old(reviewFiles), batch, now, runs)
    {
      results := [];
      for i := 0 to |batch|
        invariant Gathered(results, reviewFiles) == FetchAll(old(reviewFiles), batch[..i], now, runs)
      {
        assert batch[..i + 1][..i] == batch[..i];
        var reviews := FetchSingle(batch[i], now, runs);
        if reviews != [] {
          results := results + [Batch(batch[i], reviews)];
        }
      }
      assert batch[..|batch|] == batch;
    }

    /** The fetching loop of `review_fetch_node`: consecutive chunks of at
        most three, their results concatenated. It gathers exactly what one
        pass over all the restaurants gathers. */
    method FetchInChunks(restaurants: seq<Place>, now: int, runs: string -> ReviewScraper.ScrapeRun)
      returns (all: seq<Batch>)
      modifies this
      ensures Gathered(all, reviewFiles) == FetchAll(old(reviewFiles), restaurants, now, runs)
    {
      all := [];
      var i := 0;
      while i < |restaurants|
        invariant 0 <= i <= |restaurants|
        invariant Gathered(all, reviewFiles) == FetchAll(old(reviewFiles), restaurants[..i], now, runs)
        decreases |restaurants| - i
      {
        var end := if i + ChunkSize < |restaurants| then i + ChunkSize else |restaurants|;
        var chunk := restaurants[i..end];
        ghost var before := reviewFiles;
        var fetched := FetchReviewsBatch(chunk, now, runs);
        ChunkStep(old(reviewFiles), restaurants, i, end, now, runs, all, before, fetched, reviewFiles);
        all := all + fetched;
        i := end;
      }
      assert restaurants[..|restaurants|] == restaurants;
    }
  }

  /** Fetching two lists one after the other is fetching their
      concatenation. */
  lemma {:induction false} FetchAllAppend(files: map<string, CacheFile>, a: seq<Place>, b: seq<Place>, now: int,
                                          runs: string -> ReviewScraper.ScrapeRun)
    ensures var x := FetchAll(files, a, now, runs);
            var y := FetchAll(x.files, b, now, runs);
            FetchAll(files, a + b, now, runs) == Gathered(x.results + y.results, y.files)
    decreases |b|
  {
    if b != [] {
      var init := b[..|b| - 1];
      var last := b[|b| - 1];
      FetchAllAppend(files, a, init, now, runs);
      var x := FetchAll(files, a, now, runs);
      var y := FetchAll(x.files, init, now, runs);
      var one := FetchOne(y.files, last, now, runs);
      var extra := if one.reviews != [] then [Batch(last, one.reviews)] else [];
      assert b[..|b| - 1] == init;
      assert FetchAll(x.files, b, now, runs) == Gathered(y.results + extra, one.files);
      assert (a + b)[..|a + b| - 1] == a + init;
      assert (a + b)[|a + b| - 1] == last;
      var ab := FetchAll(files, a + init, now, runs);
      assert ab == Gathered(x.results + y.results, y.files);
      assert FetchAll(files, a + b, now, runs) == Gathered(ab.results + extra, one.files);
      ConcatAssoc(x.results, y.results, extra);
    } else {
      assert a + b == a;
    }
  }

  /** Fetching the chunk `rs[i..end]` after the prefix `rs[..i]` gathers
      what fetching the prefix `rs[..end]` gathers. */
  lemma ChunkStep(start: map<string, CacheFile>, rs: seq<Place>, i: int, end: int, now: int,
                  runs: string -> ReviewScraper.ScrapeRun, all: seq<Batch>, before: map<string, CacheFile>,
                  fetched: seq<Batch>, after: map<string, CacheFile>)
    requires 0 <= i <= end <= |rs|
    requires FetchAll(start, rs[..i], now, runs) == Gathered(all, before)
    requires FetchAll(before, rs[i..end], now, runs) == Gathered(fetched, after)
    ensures FetchAll(start, rs[..end], now, runs) == Gathered(all + fetched, after)
  {
    SliceJoin(rs, i, end);
    FetchAllAppend(start, rs[..i], rs[i..end], now, runs);
  }

  /** A restaurant with cached reviews from the last 30 days is not scraped
      again, and the cache is left as it is. */
  lemma FreshCacheIsServed(files: map<string, CacheFile>, r: Place, now: int, runs: string -> ReviewScraper.ScrapeRun)
    requires CacheKey(r) in files && files[CacheKey(r)].reviews != []
    requires files[CacheKey(r)].mtime <= now < files[CacheKey(r)].mtime + (CacheDays + 1) * Store.SecondsPerDay
    ensures FetchOne(files, r, now, runs) == Single(files[CacheKey(r)].reviews, files)
  {
    var d := Store.AgeDays(now, files[CacheKey(r)].mtime);
    assert d * Store.SecondsPerDay < (CacheDays + 1) * Store.SecondsPerDay;
  }

  /** A file 31 days old or older is never used. */
  lemma StaleCacheIsIgnored(files: map<string, CacheFile>, key: string, now: int)
    requires key in files && now >= files[key].mtime + (CacheDays + 1) * Store.SecondsPerDay
    ensures Cached(files, key, now).None?
  {
    var d := Store.AgeDays(now, files[key].mtime);
    assert (d + 1) * Store.SecondsPerDay > (CacheDays + 1) * Store.SecondsPerDay;
  }

  /** Only the fetched restaurant's file can change, and only to a non-empty
      scrape stamped now. */
  lemma FetchOneSavesOnlyScrapes(files: map<string, CacheFile>, r: Place, now: int,
                                 runs: string -> ReviewScraper.ScrapeRun)
    ensures var one := FetchOne(files, r, now, runs);
            || one.files == files
            || (one.reviews != [] && one.files == files[CacheKey(r) := CacheFile(one.reviews, now)])
  {
  }

  /** Every gathered batch is one of the restaurants, with reviews, and at
      most one batch is gathered per restaurant. */
  lemma {:induction false} FetchAllKeepsNonEmpty(files: map<string, CacheFile>, rs: seq<Place>, now: int,
                                                 runs: string -> ReviewScraper.ScrapeRun)
    ensures |FetchAll(files, rs, now, runs).results| <= |rs|
    ensures forall b :: b in FetchAll(files, rs, now, runs).results ==> b.reviews != [] && b.restaurant in rs
  {
    if rs != [] {
      FetchAllKeepsNonEmpty(files, rs[..|rs| - 1], now, runs);
      assert forall p :: p in rs[..|rs| - 1] ==> p in rs;
    }
  }

  // ---------------------------------------------------------------- nodes

  datatype Stage =
    | StartNode | PlaceSearchNode | ReviewFetchNode | VectorAnalysisNode
    | RankingNode | ResponseNode | RetryNode

  datatype Next = End | Goto(stage: Stage)

  /** The request the pipeline is invoked with. */
  datatype Input = Input(location: Option<string>, category: Option<string>)

  /** `RecommendState` of the first version. */
  datatype State = State(
    userInput: Option<Input>,
    location: Option<string>,
    category: Option<string>,
    preferences: Option<seq<string>>,
    restaurants: Option<seq<Place>>,
    reviewBatches: Option<seq<Batch>>,
    analyzed: Option<seq<Entry>>,
    recommendations: Option<seq<Entry>>,
    message: Option<string>,
    next: Option<Next>)

  /** A node's result: its successor and the keys it returns. No node of
      this version writes a null, so absent is the only other case. */
  datatype Patch = Patch(
    next: Next,
    location: Option<string>,
    category: Option<string>,
    restaurants: Option<seq<Place>>,
    reviewBatches: Option<seq<Batch>>,
    analyzed: Option<seq<Entry>>,
    recommendations: Option<seq<Entry>>,
    message: Option<string>)

  function Go(next: Next): Patch {
    Patch(next, None, None, None, None, None, None, None)
  }

  /** The patch sending the request to the retry node with a message. */
  function Retry(message: string): Patch {
    Go(Goto(RetryNode)).(message := Some(message))
  }

  function OverSome<T>(prev: Option<T>, given: Option<T>): Option<T> {
    if given.Some? then given else prev
  }

  /** Each returned key replaces the state's value. */
  function Merge(s: State, p: Patch): (r: State)
    ensures r.next == Some(p.next)
  {
    State(
      s.userInput,
      OverSome(s.location, p.location),
      OverSome(s.category, p.category),
      s.preferences,
      OverSome(s.restaurants, p.restaurants),
      OverSome(s.reviewBatches, p.reviewBatches),
      OverSome(s.analyzed, p.analyzed),
      OverSome(s.recommendations, p.recommendations),
      OverSome(s.message, p.message),
      Some(p.next))
  }

  /** The collaborators: whether the place key is set, the geocoder's and
      the text search's answers, the scrape sessions, the similarity and
      sentiment models and the reviews they raise on, the reason writer and
      the printed form of a rating. */
  datatype World = World(
    placeKeySet: bool,
    geocode: string -> PlaceInfo.Fetched<PlaceInfo.GeoResponse>,
    search: string -> PlaceInfo.Fetched<PlaceInfo.SearchResponse>,
    runs: string -> ReviewScraper.ScrapeRun,
    sim: (string, string) -> real,
    labelOf: string -> string,
    raises: seq<Review> -> bool,
    reason: (Option<string>, string, seq<string>) -> string,
    showRating: real -> string)

  /** `start_node`: location first, then category, then the size check. */
  function StartPatch(s: State, w: World): (r: Patch)
    ensures r.next == Goto(PlaceSearchNode) || r.next == Goto(RetryNode)
    ensures r.next == Goto(PlaceSearchNode) ==>
              var input := s.userInput.GetOr(Input(None, None));
              Truthy(input.location) && Truthy(input.category)
              && r.location == input.location && r.category == input.category
  {
    var input := s.userInput.GetOr(Input(None, None));
    if !Truthy(input.location) then Retry(LocationMissingMessage)
    else if !Truthy(input.category) then Retry(CategoryMissingMessage)
    else if LocationIsTooLarge(input.location.value, w.placeKeySet, w.geocode(input.location.value)) then
      Retry(TooLargeMessage)
    else Go(Goto(PlaceSearchNode)).(location := input.location, category := input.category)
  }

  /** The text search's query. */
  function Query(s: State): string {
    IdText(s.location) + " " + IdText(s.category) + " 餐廳"
  }

  /** `place_search_node`. */
  function PlaceSearchPatch(s: State, w: World): (r: Patch)
    ensures var found := LegacySearchResult(w.search(Query(s)), SearchSize);
            (r.next == Goto(RetryNode) <==> found == [])
            && (found == [] ==> r.message == Some(NoRestaurantsMessage))
            && (found != [] ==> r.next == Goto(ReviewFetchNode) && r.restaurants == Some(found) && |found| <= SearchSize)
  {
    var found := LegacySearchResult(w.search(Query(s)), SearchSize);
    LegacySearchBound(w.search(Query(s)), SearchSize);
    if found == [] then Retry(NoRestaurantsMessage)
    else Go(Goto(ReviewFetchNode)).(restaurants := Some(found))
  }

  /** `review_fetch_node`, given what the chunked fetch gathered. */
  function ReviewFetchPatch(all: seq<Batch>): (r: Patch)
    ensures r.next == Goto(RetryNode) <==> all == []
    ensures all == [] ==> r.message == Some(FetchFailedMessage)
    ensures all != [] ==> r.next == Goto(VectorAnalysisNode) && r.reviewBatches == Some(all)
  {
    if all == [] then Retry(FetchFailedMessage)
    else Go(Goto(VectorAnalysisNode)).(reviewBatches := Some(all))
  }

  /** `analyze_and_save`: the analysis of a restaurant's reviews and the
      reason written for it. */
  function AnalysisOf(b: Batch, prefs: seq<string>, w: World): (e: Entry)
    ensures e.place == b.restaurant && e.analysis.Some?
  {
    var report := LegacyEmbedding.AnalyzeReviews(b.reviews, prefs, w.sim, w.labelOf);
    Entry(b.restaurant, Some(Analysis(report.summary, report.matchScore, report.positiveRate,
                                      w.reason(b.restaurant.name, report.summary, prefs))))
  }

  /** The models raise on this batch. Reviews are only handed to them when
      there are some: with none `analyze_reviews` returns at once. */
  predicate Raises(b: Batch, w: World) {
    b.reviews != [] && w.raises(b.reviews)
  }

  /** The analysis raises on some batch; nothing catches it, so the run
      stops. */
  predicate AnalysisRaises(batches: seq<Batch>, w: World) {
    exists i :: 0 <= i < |batches| && Raises(batches[i], w)
  }

  /** The analysed records, one per batch, in order. */
  function AnalyzedAll(batches: seq<Batch>, prefs: seq<string>, w: World): (r: seq<Entry>)
    ensures |r| == |batches|
  {
    if batches == [] then []
    else AnalyzedAll(batches[..|batches| - 1], prefs, w) + [AnalysisOf(batches[|batches| - 1], prefs, w)]
  }

  /** The record at position `i` is the analysis of the batch at `i`, for
      that batch's restaurant. */
  lemma {:induction false} AnalyzedAllAt(batches: seq<Batch>, prefs: seq<string>, w: World, i: int)
    requires 0 <= i < |batches|
    ensures AnalyzedAll(batches, prefs, w)[i] == AnalysisOf(batches[i], prefs, w)
    ensures AnalyzedAll(batches, prefs, w)[i].place == batches[i].restaurant
    decreases |batches|
  {
    if i < |batches| - 1 {
      AnalyzedAllAt(batches[..|batches| - 1], prefs, w, i);
    }
  }

  /** One more batch analysed, or found raising. */
  lemma AnalyzedAllStep(batches: seq<Batch>, prefs: seq<string>, w: World, i: int)
    requires 0 <= i < |batches|
    ensures AnalyzedAll(batches[..i + 1], prefs, w) == AnalyzedAll(batches[..i], prefs, w) + [AnalysisOf(batches[i], prefs, w)]
    ensures Raises(batches[i], w) ==> AnalysisRaises(batches, w)
  {
    assert batches[..i + 1][..i] == batches[..i];
  }

  /** The loop of `vector_analysis_node`; `None` when a batch raises. */
  method VectorAnalysis(batches: seq<Batch>, prefs: seq<string>, w: World) returns (analyzed: Option<seq<Entry>>)
    ensures analyzed.None? <==> AnalysisRaises(batches, w)
    ensures analyzed.Some? ==> analyzed.value == AnalyzedAll(batches, prefs, w)
  {
    var out := [];
    for i := 0 to |batches|
      invariant out == AnalyzedAll(batches[..i], prefs, w)
      invariant forall j :: 0 <= j < i ==> !Raises(batches[j], w)
    {
      AnalyzedAllStep(batches, prefs, w, i);
      if Raises(batches[i], w) {
        return None;
      }
      out := out + [AnalysisOf(batches[i], prefs, w)];
    }
    assert batches[..|batches|] == batches;
    return Some(out);
  }

  /** `vector_analysis_node`; `None` when the analysis raises. */
  function VectorAnalysisPatch(s: State, w: World): (r: Option<Patch>)
    ensures r.None? <==> AnalysisRaises(s.reviewBatches.GetOr([]), w)
    ensures r.Some? ==> r.value.next == Goto(RankingNode) && r.value.analyzed.Some?
    ensures r.Some? ==> |r.value.analyzed.value| == |s.reviewBatches.GetOr([])|
  {
    if AnalysisRaises(s.reviewBatches.GetOr([]), w) then None
    else Some(Go(Goto(RankingNode)).(analyzed := Some(AnalyzedAll(s.reviewBatches.GetOr([]), s.preferences.GetOr([]), w))))
  }

  /** The first version's ranking: the weighted score without any bonus. */
  function LegacyRank(analyzed: seq<Entry>): (r: seq<Entry>)
    ensures |r| == |analyzed|
  {
    Rank(analyzed, [])
  }

  /** `ranking_node`. */
  function RankingPatch(s: State): (r: Patch)
    ensures r.next == Goto(ResponseNode) && r.recommendations.Some?
    ensures |r.recommendations.value| == Min(TopCount, |s.analyzed.GetOr([])|)
  {
    Go(Goto(ResponseNode)).(recommendations := Some(Take(LegacyRank(s.analyzed.GetOr([])), TopCount)))
  }

  /** Python's `str` of an integer. */
  function IntText(n: int): string
    decreases if n < 0 then 1 - n else n
  {
    if n < 0 then "-" + IntText(-n)
    else if n < 10 then [(('0' as int) + n) as char]
    else IntText(n / 10) + [(('0' as int) + n % 10) as char]
  }

  /** The opening line of the reply. */
  function ReplyHeader(prefs: seq<string>): string {
    "🎯 根據你的偏好（" + Join("、", prefs) + "），推薦如下：\n\n"
  }

  /** The reply's block for the `i`-th recommendation. */
  function ReplyBlock(medal: string, e: Entry, w: World): string {
    var reason := if e.analysis.Some? then e.analysis.value.reason else "None";
    medal + " " + IdText(e.place.name) + " - ⭐" + w.showRating(RatingOf(e))
      + "（" + IntText(e.place.userRatingsTotal.GetOr(0)) + " 則評論）\n"
      + "📍 " + IdText(e.place.mapUrl) + "\n💬 推薦理由：" + reason + "\n\n"
  }

  function ReplyBlocks(recs: seq<Entry>, w: World): string
    requires |recs| <= |Medals|
  {
    if recs == [] then ""
    else ReplyBlocks(recs[..|recs| - 1], w) + ReplyBlock(Medals[|recs| - 1], recs[|recs| - 1], w)
  }

  /** `response_node`; `None` when there are more than three
      recommendations, where the medal lookup raises. */
  function ResponsePatch(s: State, w: World): (r: Option<Patch>)
    ensures r.Some? <==> |s.recommendations.GetOr([])| <= |Medals|
    ensures r.Some? ==> r.value.next == End && r.value.message.Some?
  {
    var recs := s.recommendations.GetOr([]);
    if |recs| > |Medals| then None
    else Some(Go(End).(message := Some(ReplyHeader(s.preferences.GetOr([])) + ReplyBlocks(recs, w))))
  }

  /** `retry_node`: the pending message, or a default prompt when there is
      none or it is empty. */
  function RetryPatch(s: State): (r: Patch)
    ensures r.next == End && r.message.Some? && r.message.value != ""
    ensures Truthy(s.message) ==> r.message == s.message
  {
    Go(End).(message := Some(if Truthy(s.message) then s.message.value else DefaultRetryMessage))
  }

  // ------------------------------------------------------------ the graph

  /** The patch of a node whose result does not depend on the cache. */
  function PurePatchOf(n: Stage, s: State, w: World): Option<Patch>
    requires n != ReviewFetchNode
  {
    match n
    case StartNode => Some(StartPatch(s, w))
    case PlaceSearchNode => Some(PlaceSearchPatch(s, w))
    case VectorAnalysisNode => VectorAnalysisPatch(s, w)
    case RankingNode => Some(RankingPatch(s))
    case ResponseNode => ResponsePatch(s, w)
    case RetryNode => Some(RetryPatch(s))
  }

  /** The pipeline's order. */
  function Depth(n: Stage): nat {
    match n
    case StartNode => 6
    case PlaceSearchNode => 5
    case ReviewFetchNode => 4
    case VectorAnalysisNode => 3
    case RankingNode => 2
    case ResponseNode => 1
    case RetryNode => 0
  }

  /** Every node hands on to a node further down, or ends. */
  lemma PipelineDescends(n: Stage, s: State, w: World, all: seq<Batch>)
    ensures n != ReviewFetchNode && PurePatchOf(n, s, w).Some? && PurePatchOf(n, s, w).value.next.Goto? ==>
              Depth(PurePatchOf(n, s, w).value.next.stage) < Depth(n)
    ensures ReviewFetchPatch(all).next.Goto? ==> Depth(ReviewFetchPatch(all).next.stage) < Depth(ReviewFetchNode)
  {
  }

  /** The patch of node `n` run with the cache `files`; `None` when the
      node raises. Every node hands on further down the pipeline, and only
      the retry and response nodes end the run, each leaving a message. */
  function PatchAt(n: Stage, s: State, w: World, files: map<string, CacheFile>, now: int): (r: Option<Patch>)
    ensures r.Some? && r.value.next.Goto? ==> Depth(r.value.next.stage) < Depth(n)
    ensures r.Some? && r.value.next.End? ==> (n == RetryNode || n == ResponseNode) && Merge(s, r.value).message.Some?
  {
    if n == ReviewFetchNode then Some(ReviewFetchPatch(FetchAll(files, s.restaurants.GetOr([]), now, w.runs).results))
    else PurePatchOf(n, s, w)
  }

  /** The cache after node `n`: only the review fetch writes it. */
  function FilesAfter(n: Stage, s: State, w: World, files: map<string, CacheFile>, now: int): map<string, CacheFile> {
    if n == ReviewFetchNode then FetchAll(files, s.restaurants.GetOr([]), now, w.runs).files else files
  }

  /** Where a run ends: the final state, whether it reached the end, and
      the cache. */
  datatype RunResult = RunResult(state: State, completed: bool, files: map<string, CacheFile>)

  /** The run from node `n`: each node's patch merged in turn until a node
      ends the run or raises. */
  function Run(n: Stage, s: State, w: World, files: map<string, CacheFile>, now: int): (r: RunResult)
    ensures r.completed ==> r.state.next == Some(End) && r.state.message.Some?
    decreases Depth(n)
  {
    match PatchAt(n, s, w, files, now)
    case None => RunResult(s, false, files)
    case Some(p) =>
      var t := Merge(s, p);
      var f := FilesAfter(n, s, w, files, now);
      if p.next.End? then RunResult(t, true, f) else Run(p.next.stage, t, w, f, now)
  }

  /** What a run may meet at node `n`: the response node holds no more
      recommendations than there are medals, and the analysis node is the
      state's recorded successor. Every run from the start keeps to this. */
  predicate Reached(n: Stage, s: State) {
    && (n == ResponseNode ==> |s.recommendations.GetOr([])| <= |Medals|)
    && (n == VectorAnalysisNode ==> s.next == Some(Goto(VectorAnalysisNode)))
  }

  /** A run stops short of the end exactly when the analysis raises: it then
      stands at the analysis node with the batches it could not analyse. */
  lemma {:induction false} RunStopsOnlyInAnalysis(n: Stage, s: State, w: World, files: map<string, CacheFile>, now: int)
    requires Reached(n, s)
    ensures var r := Run(n, s, w, files, now);
            !r.completed <==>
              r.state.next == Some(Goto(VectorAnalysisNode)) && AnalysisRaises(r.state.reviewBatches.GetOr([]), w)
    decreases Depth(n)
  {
    var p := PatchAt(n, s, w, files, now);
    if p.Some? && p.value.next.Goto? {
      var m := p.value.next.stage;
      var t := Merge(s, p.value);
      if m == ResponseNode {
        assert n == RankingNode;
      }
      assert Reached(m, t);
      RunStopsOnlyInAnalysis(m, t, w, FilesAfter(n, s, w, files, now), now);
    }
  }

  /** Runs node `n`; only the review fetch touches the cache. */
  method Step(agent: RecommendAgent, n: Stage, s: State, w: World, now: int) returns (p: Option<Patch>)
    modifies agent
    ensures n != ReviewFetchNode ==> p == PurePatchOf(n, s, w) && agent.reviewFiles == old(agent.reviewFiles)
    ensures n == ReviewFetchNode ==>
              var g := FetchAll(old(agent.reviewFiles), s.restaurants.GetOr([]), now, w.runs);
              p == Some(ReviewFetchPatch(g.results)) && agent.reviewFiles == g.files
    ensures p.Some? && p.value.next.Goto? ==> Depth(p.value.next.stage) < Depth(n)
    ensures p.Some? && p.value.next.End? && (n == RetryNode || n == ResponseNode) ==>
              Merge(s, p.value).message.Some?
    ensures p == PatchAt(n, s, w, old(agent.reviewFiles), now)
    ensures agent.reviewFiles == FilesAfter(n, s, w, old(agent.reviewFiles), now)
  {
    if n == ReviewFetchNode {
      var all := agent.FetchInChunks(s.restaurants.GetOr([]), now, w.runs);
      PipelineDescends(n, s, w, all);
      return Some(ReviewFetchPatch(all));
    }
    if n == VectorAnalysisNode {
      var analyzed := VectorAnalysis(s.reviewBatches.GetOr([]), s.preferences.GetOr([]), w);
      if analyzed.None? {
        return None;
      }
      return Some(Go(Goto(RankingNode)).(analyzed := Some(analyzed.value)));
    }
    p := PurePatchOf(n, s, w);
    PipelineDescends(n, s, w, []);
    if p.Some? && p.value.next.End? && (n == RetryNode || n == ResponseNode) {
      EndsWithMessage(n, s, w);
    }
  }

  /** The two nodes that end a run leave a message. */
  lemma EndsWithMessage(n: Stage, s: State, w: World)
    requires n == RetryNode || n == ResponseNode
    requires PurePatchOf(n, s, w).Some?
    ensures Merge(s, PurePatchOf(n, s, w).value).message.Some?
  {
  }

  /** `app.invoke`: from the start node until a node ends the run, or
      stops (`completed` false) where a node raises. The final state and
      the cache are those of `Run` from the start node. */
  method Invoke(agent: RecommendAgent, s0: State, w: World, now: int) returns (s: State, completed: bool)
    modifies agent
    ensures var r := Run(StartNode, s0, w, old(agent.reviewFiles), now);
            s == r.state && completed == r.completed && agent.reviewFiles == r.files
    ensures completed ==> s.next == Some(End) && s.message.Some?
  {
    ghost var whole := Run(StartNode, s0, w, agent.reviewFiles, now);
    s := s0;
    var n := StartNode;
    while true
      invariant Run(n, s, w, agent.reviewFiles, now) == whole
      decreases Depth(n)
    {
      var p := Step(agent, n, s, w, now);
      if p.None? {
        return s, false;
      }
      s := Merge(s, p.value);
      if p.value.next.End? {
        return s, true;
      }
      n := p.value.next.stage;
    }
  }

  /** A run from the start completes unless the analysis raises on some
      fetched batch. */
  lemma InvokeStopsOnlyInAnalysis(s0: State, w: World, files: map<string, CacheFile>, now: int)
    ensures var r := Run(StartNode, s0, w, files, now);
            !r.completed <==>
              r.state.next == Some(Goto(VectorAnalysisNode)) && AnalysisRaises(r.state.reviewBatches.GetOr([]), w)
  {
    RunStopsOnlyInAnalysis(StartNode, s0, w, files, now);
  }

  // ----------------------------------------------------------- properties

  /** The start node searches exactly when both slots are given and the
      location is not too large; without a place key only the slots
      matter. */
  lemma StartSearchesExactly(s: State, w: World)
    ensures var input := s.userInput.GetOr(Input(None, None));
            StartPatch(s, w).next == Goto(PlaceSearchNode) <==>
              Truthy(input.location) && Truthy(input.category)
              && !LocationIsTooLarge(input.location.value, w.placeKeySet, w.geocode(input.location.value))
    ensures !w.placeKeySet ==>
              var input := s.userInput.GetOr(Input(None, None));
              (StartPatch(s, w).next == Goto(PlaceSearchNode) <==> Truthy(input.location) && Truthy(input.category))
  {
  }

  /** A missing location is reported before a missing category. */
  lemma LocationIsCheckedFirst(s: State, w: World)
    requires !Truthy(s.userInput.GetOr(Input(None, None)).location)
    ensures StartPatch(s, w) == Retry(LocationMissingMessage)
  {
  }

  /** Whatever sends the run to the retry node carries a non-empty message,
      and the retry node shows that message. */
  lemma RetryShowsTheReason(n: Stage, s: State, w: World, all: seq<Batch>)
    ensures n != ReviewFetchNode && PurePatchOf(n, s, w).Some? && PurePatchOf(n, s, w).value.next == Goto(RetryNode) ==>
              var p := PurePatchOf(n, s, w).value;
              Truthy(p.message) && RetryPatch(Merge(s, p)).message == p.message
    ensures ReviewFetchPatch(all).next == Goto(RetryNode) ==>
              RetryPatch(Merge(s, ReviewFetchPatch(all))).message == Some(FetchFailedMessage)
  {
  }

  /** The first version ranks by the weighted score alone: a permutation of
      the analysed records, none scoring more than the one before it, the
      same order the recommender gives when the user has no wishes. */
  lemma RankingHasNoBonus(analyzed: seq<Entry>)
    ensures multiset(LegacyRank(analyzed)) == multiset(analyzed)
    ensures forall i, j :: 0 <= i < j < |analyzed| ==>
              BaseScore(LegacyRank(analyzed)[i]) >= BaseScore(LegacyRank(analyzed)[j])
    ensures LegacyRank(analyzed) == RankingOf(analyzed, []).ranked
  {
    RankIsPermutation(analyzed, []);
    RankIsOrdered(analyzed, []);
    var r := LegacyRank(analyzed);
    forall i, j | 0 <= i < j < |analyzed| ensures BaseScore(r[i]) >= BaseScore(r[j]) {
      MoreWishesNeverLower(r[i], [], []);
      MoreWishesNeverLower(r[j], [], []);
    }
  }

  /** The recommendations are the first three of the ranking, and none of
      the rest scores higher. */
  lemma RecommendationsAreTheFirstThree(s: State)
    ensures var a := s.analyzed.GetOr([]);
            var recs := RankingPatch(s).recommendations.value;
            && |recs| == Min(TopCount, |a|)
            && recs == LegacyRank(a)[..|recs|]
            && forall x, y :: x in recs && y in LegacyRank(a)[|recs|..] ==> BaseScore(x) >= BaseScore(y)
  {
    var a := s.analyzed.GetOr([]);
    RecommendationsAreTheBest(a, []);
    var recs := RankingPatch(s).recommendations.value;
    if a != [] {
      assert recs == RankingOf(a, []).recommendations;
    }
    forall x, y | x in recs && y in LegacyRank(a)[|recs|..] ensures BaseScore(x) >= BaseScore(y) {
      MoreWishesNeverLower(x, [], []);
      MoreWishesNeverLower(y, [], []);
    }
  }
}
