# Semantic memory recommender — a Dafny model of its core

The system is a chat-driven restaurant recommender for Taiwan. A user names a
place and a kind of food. A dialogue graph asks for any missing slot. It
rejects areas that are too large and collects dietary constraints and wishes.
It asks the user to confirm. It then searches Google Places, scrapes each
restaurant's Google Maps reviews, or serves them from a 30-day cache. It
scores the reviews against the wishes with a sentence embedder and a
sentiment classifier, ranks the restaurants and recommends the best three.
A first, simpler version of the same pipeline survives in `backend/`, with a
JSON-file cache and no dialogue. It is modelled too, beside the current one.

The model covers these parts:

- Text helpers in the module `Text`: Python's `strip`, `lower`, `find`,
  `rfind`, `join` and `split`, on `seq<char>`.
- Records and stable sorting: `Records` holds the dictionaries as datatypes,
  `Sorting` holds Python's stable `sorted(..., reverse=True)` and slicing.
- The database helpers (`Store`, with the class `Store.Db` holding the three
  tables as maps and a list) and the writer in `DbWriter`.
- The helpers the language model's replies pass through: `UserInput`,
  which unfences the reply, cuts out the JSON block and decodes it.
- Preference classification and the strong-constraint filter, in
  `Preferences`.
- The place tool (`PlaceInfo`, `LegacyPlaceInfo`), the review scraper
  (`ReviewScraper`, `LegacyReviewScraper`) and the review analysis
  (`Embedding`, `LegacyEmbedding`).
- The agent's batch fetching and analysis (`Agent`, over `Store.Db`), and the
  ranking (`Ranking`).
- The twelve-node dialogue graph: every node as a patch function,
  `route_next`, and the server's merge of each patch. One user turn is
  `Dialogue.RunTurn`, a loop proved against the recursive specification
  `Dialogue.Turn`.
- The first version's agent (`LegacyAgent`): a class whose field is the
  review cache, its chunked fetch loop, its seven nodes and the run loop
  `Invoke`, proved against the recursive specification `LegacyAgent.Run`.
  Nothing in this version catches an exception from the analysis models,
  so such an exception stops the run.

These are parameters of the model rather than code in it:

- Google's replies (geocoding, nearby search, details, text search).
- The browser session: a scrape is the sequence of review elements the page
  shows, `None` for an element that raised.
- The language model's replies, the JSON decoder, the embedding similarity
  and the sentiment labels.
- The clock (`now`, in seconds).
- Whether an insert's commit fails.

## Model

| member | source | states |
|---|---|---|
| Text.TrimLeft | backend/recommender/recommend_agent.py:375-379 | `lstrip()` returns a suffix of its input that is empty or starts with a non-space |
| Text.TrimLeftDropsSpaces | backend/recommender/recommend_agent.py:375-379 | everything `lstrip()` drops is whitespace |
| Text.TrimRight | backend/recommender/recommend_agent.py:375-379 | `rstrip()` returns a prefix of its input that is empty or ends with a non-space |
| Text.TrimRightDropsSpaces | backend/recommender/recommend_agent.py:375-379 | everything `rstrip()` drops is whitespace |
| Text.StripSpec | backend/recommender/recommend_agent.py:375-379 | `strip()` returns a slice of its input that is empty or starts and ends with a non-space |
| Text.StripIdempotent | backend/recommender/recommend_agent.py:375-379 | stripping twice is stripping once |
| Text.StripUntouched | backend/recommender/recommend_agent.py:375-379 | a text with no whitespace at either end is its own strip |
| Text.StripLeadingSpace | backend/recommender/recommend_agent.py:375-379 | a leading whitespace character makes no difference to the strip |
| Text.StripKeepsChars | backend/recommender/recommend_agent.py:375-379 | stripping introduces no character |
| Text.StripBounds | backend/recommender/recommend_agent.py:375-379 | `strip()` is the slice between a whitespace prefix and a whitespace suffix |
| Text.Lower | backend/recommender/recommend_agent.py:437-438 | `lower()` keeps the length and maps every character by itself |
| Text.Find | backend/recommender/recommend_agent.py:382-386 | `find` gives -1 iff the character is absent, else its first position |
| Text.RFind | backend/recommender/recommend_agent.py:382-386 | `rfind` gives -1 iff the character is absent, else its last position |
| Text.FindFrom | backend/recommender/recommend_agent.py:379 | the first occurrence of a substring at or after a start position, or -1 when none occurs there |
| Text.SplitJoinRoundTrip | backend/recommender/recommend_agent.py:250-260 | splitting a comma-join of comma-free texts gives the texts back |
| Text.SplitOnAfterField | backend/recommender/recommend_agent.py:250-260 | splitting `a + sep + b` gives `a` and then the split of `b` |
| Text.SplitOn | backend/recommender/recommend_agent.py:250-260 | `split` always gives at least one field |
| Text.SplitOnNoSeparator | backend/recommender/recommend_agent.py:250-260 | a text without the separator splits into itself alone |
| Sorting.Take | backend/recommender/recommend_agent.py:1295-1349 | the first `max(n, 0)` elements of the input, in order, or all of them when it is shorter |
| Sorting.SortDescPermutes | backend/recommender/recommend_agent.py:1295-1349 | the stable descending sort is a permutation of its input |
| Sorting.SortDescSorted | backend/recommender/recommend_agent.py:1295-1349 | no key in the sort's output exceeds the key before it |
| Sorting.SortDescStable | backend/recommender/recommend_agent.py:1295-1349 | elements with equal keys keep their input order |
| Sorting.SortDescOfSorted | backend/recommender/recommend_agent.py:1295-1349 | an input already in descending order is left as it is |
| Sorting.SortDescTopK | backend/recommender/recommend_agent.py:1295-1349 | none of the elements after the first k sorted ones has a larger key than any of them |
| Sorting.InsertDescPermutes | backend/recommender/recommend_agent.py:1295-1349 | inserting one element into the sorted list adds exactly that element |
| Sorting.InsertDescSorted | backend/recommender/recommend_agent.py:1295-1349 | inserting into a descending list keeps it descending |
| Sorting.InsertDescStable | backend/recommender/recommend_agent.py:1295-1349 | the inserted element goes before the others with its key, which keep their order |
| Store.AgeDays | backend/recommender/recommend_agent.py:137-143 | `timedelta.days` of a difference in seconds: the floor of the difference in days |
| Store.StampedRowIsFresh | backend/recommender/recommend_agent.py:67-90 | a row stamped now is fresh for any non-negative cache period |
| Store.FreshnessBoundary | backend/recommender/recommend_agent.py:137-143 | a row stays fresh until the last second of the day after the cache period and is stale from the next second |
| Store.Normalized | backend/recommender/recommend_agent.py:182-213 | one stored review per input review, with the text or "" and the stars as given |
| Store.TopPlaceIds | backend/recommender/recommend_agent.py:250-260 | at most three ids, each non-empty and the id of one of the first three ranked restaurants |
| Store.TopIdsOf | backend/recommender/recommend_agent.py:250-260 | no more ids than records, each non-empty and the id of one of them |
| Store.NoTruthyIdsGiveNone | backend/recommender/recommend_agent.py:250-260 | records without a usable id contribute no id |
| Store.TopPlaceIdsRoundTrip | backend/recommender/recommend_agent.py:250-260 | the stored comma-joined ids split back into the same ids |
| Store.NoTopIdsReadsBackAsOneEmptyId | backend/recommender/recommend_agent.py:250-260 | with no usable id the stored text is empty, and splitting it yields one empty id |
| Store.Db.constructor | backend/app/db.py:28-73 | starts with no rows, no reviews and no records |
| Store.Db.UpsertRestaurantFromDict | backend/recommender/recommend_agent.py:41-101 | writes iff the place id is truthy and a name is given, the row being the stamped row for the dictionary; other tables unchanged |
| Store.Db.CachedReviewsIfFresh | backend/recommender/recommend_agent.py:104-160 | reviews are served iff the restaurant exists with an update stamp no older than the cache period and has stored reviews, and they are exactly those reviews |
| Store.Db.ReplaceReviewsInDb | backend/recommender/recommend_agent.py:163-220 | for a known non-empty id the restaurant's reviews become the normalised new list; otherwise nothing changes |
| Store.Db.InsertRecommendationRecord | backend/recommender/recommend_agent.py:222-270 | appends exactly one record unless the commit fails, when nothing changes |
| DbWriter.UpsertRestaurant | backend/app/db_writer.py:6-40 | writes iff place id and name are present, replacing the row for that id; a missing key raises and nothing changes |
| DbWriter.UpsertReviews | backend/app/db_writer.py:42-68 | a known restaurant's reviews are replaced by the new list; an unknown id changes nothing |
| DbWriter.InsertRecommendation | backend/app/db_writer.py:70-97 | appends exactly one record unless the commit fails |
| DbWriter.UpsertTwiceKeepsLast | backend/app/db_writer.py:6-40 | two upserts with the same place id leave one row for it, the second write's, and add at most one row |
| UserInput.DetectNonFoodIntent | backend/recommender/recommend_agent.py:316-320 | a failed model call counts as food-related; a "yes" answer needs at least three characters |
| UserInput.YesMeansNonFood | backend/recommender/recommend_agent.py:316-320 | a reply starting with "yes", after stripping and in any case, marks the message as not about food |
| UserInput.Unfence | backend/recommender/recommend_agent.py:379 | removing the code fences never lengthens the reply |
| UserInput.FencedBodyIsKept | backend/recommender/recommend_agent.py:379 | a reply that is one "json"-tagged fenced block yields exactly its body |
| UserInput.UnfenceWithoutFence | backend/recommender/recommend_agent.py:379 | a reply without backticks is left as it is |
| UserInput.UnfenceKeepsChars | backend/recommender/recommend_agent.py:379 | unfencing only drops characters |
| UserInput.BlockOf | backend/recommender/recommend_agent.py:382-388 | the decoded text runs from the first '{' to the last '}': it occurs in the reply with no '{' before it and no '}' after it; none when either brace is missing or they are out of order |
| UserInput.PreferenceList | backend/recommender/recommend_agent.py:392-395 | a single preference text becomes a one-element list, a missing one the empty list |
| UserInput.ParseUserInput | backend/recommender/recommend_agent.py:322-400 | a request exactly when the call answered, a JSON block was found and it decoded; the request holds the decoded location and category and the preferences as a list |
| UserInput.NoBracesNoRequest | backend/recommender/recommend_agent.py:382-386 | a reply lacking '{' or '}' gives no request, whatever the decoder does |
| Preferences.ClassifyPreferences | backend/recommender/recommend_agent.py:403-450 | the loop's split equals the rule-by-rule classification of every preference |
| Preferences.ClassifyPartitions | backend/recommender/recommend_agent.py:403-450 | each preference lands in exactly one of the two lists |
| Preferences.ClassifyAccountsForAll | backend/recommender/recommend_agent.py:403-450 | a tag is strong, or a text weak, iff some preference classifies to it |
| Preferences.WeakIsUnmatchedText | backend/recommender/recommend_agent.py:436-450 | a preference is a wish only when no constraint rule matches it, and it is kept lower-cased |
| Preferences.FirstRuleWins | backend/recommender/recommend_agent.py:436-450 | a preference matching two rules takes the first rule's tag |
| Preferences.CaseIsIgnored | backend/recommender/recommend_agent.py:436-450 | the rules match whatever the letter case |
| Preferences.FilterByStrong | backend/recommender/recommend_agent.py:1122-1138 | the filter loop keeps exactly the restaurants passing every strong constraint, in order |
| Preferences.PassingExactly | backend/recommender/recommend_agent.py:1122-1138 | a restaurant is kept iff it was found and passes every constraint |
| Preferences.PassingWithoutConstraints | backend/recommender/recommend_agent.py:1122-1138 | with no constraints every restaurant is kept |
| Preferences.NameAlternationsAreSingleChars | backend/recommender/recommend_agent.py:1122-1138 | each name pattern matches exactly the names containing its one character |
| PlaceInfo.LocationIsTooLarge | backend/recommender/tools/place_info_tool.py:30-71 | an empty location is too large; a failed or timed-out geocoding call means it is not |
| PlaceInfo.ViewportDecides | backend/recommender/tools/place_info_tool.py:49-61 | with a viewport, the answer is whether either span exceeds 0.2 degrees |
| PlaceInfo.SliceTo | backend/recommender/tools/place_info_tool.py:129 | `xs[:n]` is a prefix of `min(n, len)` elements |
| PlaceInfo.WithId | backend/recommender/tools/place_info_tool.py:129-141 | the items that get a record: no more than the results, each with a place id |
| PlaceInfo.ShapeEntry | backend/recommender/tools/place_info_tool.py:157-168 | the record keeps the item's name and id, builds the map link from the id, defaults rating and review count to 0, takes the address from the details, else the vicinity, else "", and the other fields from the details |
| PlaceInfo.Shaped | backend/recommender/tools/place_info_tool.py:128-168 | never more records than items |
| PlaceInfo.SearchResult | backend/recommender/tools/place_info_tool.py:78-170 | a failed or refused geocoding yields no restaurants; the search raises only after a successful geocoding |
| PlaceInfo.ShapedStaysRaised | backend/recommender/tools/place_info_tool.py:128-155 | once the loop has raised on a prefix of the results, the whole search raises |
| PlaceInfo.LastAnswerBound | backend/recommender/tools/place_info_tool.py:142-155 | the held details response is unbound before the first item with an id, and bound from then on when that item's request answered |
| PlaceInfo.ShapedRaises | backend/recommender/tools/place_info_tool.py:128-155 | the search raises exactly when the first details request raises |
| PlaceInfo.ShapedLength | backend/recommender/tools/place_info_tool.py:128-168 | one record per item with a place id |
| PlaceInfo.ShapedAt | backend/recommender/tools/place_info_tool.py:128-168 | the record at each position belongs to the item with an id at that position, with its defaults |
| PlaceInfo.StaleDetailsReused | backend/recommender/tools/place_info_tool.py:142-155 | a details request that raises after an earlier one answered gives the restaurant the earlier restaurant's details |
| PlaceInfo.SearchRestaurants | backend/recommender/tools/place_info_tool.py:78-170 | the loop, holding the last details response as the source does, builds exactly the specified result, or raises where the source does |
| PlaceInfo.ShapedSpec | backend/recommender/tools/place_info_tool.py:128-168 | one restaurant per result with a place id, in order, carrying that item's name, id and map link, its rating and review count defaulting to 0, and, when its own details answered, the fields of that answer |
| PlaceInfo.SearchBound | backend/recommender/tools/place_info_tool.py:78-170 | a search that does not raise never yields more restaurants than asked for |
| PlaceInfo.OverQueryLimitYieldsNothing | backend/recommender/tools/place_info_tool.py:120-123 | a refused nearby search gives the empty list |
| LegacyPlaceInfo.LocationIsTooLarge | backend/tools/place_info_tool.py:30-71 | empty is too large; without an API key nothing else is; with a key it is the recommender's test |
| LegacyPlaceInfo.LegacyShaped | backend/tools/place_info_tool.py:107-116 | one restaurant per search result, in order, with none skipped |
| LegacyPlaceInfo.LegacySearchResult | backend/tools/place_info_tool.py:76-122 | a failed request or a status other than OK gives nothing; otherwise each record is built from the result at its own position |
| LegacyPlaceInfo.SearchRestaurants | backend/tools/place_info_tool.py:76-122 | the loop builds exactly the specified result list |
| LegacyPlaceInfo.LegacySearchBound | backend/tools/place_info_tool.py:76-122 | never more than asked for, and exactly `min(n, results)` on an OK reply |
| LegacyPlaceInfo.MissingIdKept | backend/tools/place_info_tool.py:108-116 | a result without a place id is kept, with the map link ending in "None" |
| ReviewScraper.RemoveIllegal | backend/recommender/tools/review_scraper_tool.py:12-14 | exactly the characters not forbidden in file names are kept |
| ReviewScraper.SanitizeFilename | backend/recommender/tools/review_scraper_tool.py:12-14 | the name keeps no forbidden character and has no surrounding whitespace |
| ReviewScraper.SanitizeIdempotent | backend/recommender/tools/review_scraper_tool.py:12-14 | sanitising a sanitised name changes nothing |
| ReviewScraper.FirstDigit | backend/recommender/tools/review_scraper_tool.py:106-108 | the position found is within the label and holds an ASCII digit |
| ReviewScraper.FirstDigitSpec | backend/recommender/tools/review_scraper_tool.py:106-108 | no digit comes before the position found, and -1 means the label has no digit at all |
| ReviewScraper.ParseStars | backend/recommender/tools/review_scraper_tool.py:106-108 | a rating read from the label lies in [0, 10) |
| ReviewScraper.ParseStarsNone | backend/recommender/tools/review_scraper_tool.py:106-108 | the label reads as no rating iff it holds no digit |
| ReviewScraper.ParseStarsExamples | backend/recommender/tools/review_scraper_tool.py:106-108 | "5 顆星" gives 5, "評分 4.5" gives 4.5, "4. 顆星" gives 4, no digit gives none |
| ReviewScraper.ExtractReviewsAsWritten | backend/recommender/tools/review_scraper_tool.py:101-117 | the loop, with the cap tested after the append, equals its specification |
| ReviewScraper.ExtractReviews | backend/recommender/tools/review_scraper_tool.py:101-117 | the corrected loop equals its specification |
| ReviewScraper.ToReviewsAt | backend/recommender/tools/review_scraper_tool.py:110-112 | the review at each position holds the stripped text and the stars of the kept element at that position |
| ReviewScraper.FirstSeenStep | backend/recommender/tools/review_scraper_tool.py:110-112 | one more element is kept exactly when it is readable and its raw text has not been seen |
| ReviewScraper.FirstSeenIsPrefixClosed | backend/recommender/tools/review_scraper_tool.py:101-115 | what a prefix of the page keeps is a prefix of what the whole page keeps, so stopping early keeps the first ones |
| ReviewScraper.CappedPrefix | backend/recommender/tools/review_scraper_tool.py:101-117 | stopping when the cap is reached keeps the first `cap` distinct reviews |
| ReviewScraper.ToReviews | backend/recommender/tools/review_scraper_tool.py:113-117 | one stored review per kept element |
| ReviewScraper.FirstSeenTwo | backend/recommender/tools/review_scraper_tool.py:110-112 | two readable elements with different raw texts are both kept, in page order |
| ReviewScraper.CorrectionAgreesFromOne | backend/recommender/tools/review_scraper_tool.py:114-115 | for every cap of at least 1 the loop as written and the corrected loop return the same reviews |
| ReviewScraper.ScrapedCount | backend/recommender/tools/review_scraper_tool.py:101-117 | the corrected scrape keeps `min(cap, distinct texts)` reviews |
| ReviewScraper.FirstSeenSpec | backend/recommender/tools/review_scraper_tool.py:110-112 | the kept texts come from the page, are pairwise distinct, and cover every readable text |
| ReviewScraper.DistinctRawTextsBothKept | backend/recommender/tools/review_scraper_tool.py:110-112 | two different raw texts are both kept |
| ReviewScraper.WhitespaceVariantsBothKept | backend/recommender/tools/review_scraper_tool.py:110-112 | texts differing only by spacing are deduplicated on the raw text, so both are stored, with equal stripped texts |
| ReviewScraper.EmptyTextKept | backend/recommender/tools/review_scraper_tool.py:110-112 | an empty text is kept |
| ReviewScraper.UnreadableSkipped | backend/recommender/tools/review_scraper_tool.py:115-116 | an element that raises is skipped |
| ReviewScraper.GetAllReviews | backend/recommender/tools/review_scraper_tool.py:145-150 | a failed run gives no reviews; never more than the cap |
| LegacyReviewScraper.ExtractReviewsAsWritten | backend/tools/review_scraper_tool.py:67-84 | the loop, with the cap tested after the append, equals its specification |
| LegacyReviewScraper.ExtractReviews | backend/tools/review_scraper_tool.py:67-84 | the corrected loop equals its specification |
| LegacyReviewScraper.KeptOfStep | backend/tools/review_scraper_tool.py:76-79 | one more element is kept exactly when it is readable, its stripped text is not empty and not yet seen |
| LegacyReviewScraper.KeepStep | backend/tools/review_scraper_tool.py:76-79 | a kept element extends the kept list, the seen set and the reviews by its own stripped text and stars |
| LegacyReviewScraper.SkipStep | backend/tools/review_scraper_tool.py:76-79 | an element that fails the test changes nothing |
| LegacyReviewScraper.KeptOfIsPrefixClosed | backend/tools/review_scraper_tool.py:67-81 | what a prefix of the page keeps is a prefix of what the whole page keeps |
| LegacyReviewScraper.CappedPrefix | backend/tools/review_scraper_tool.py:67-81 | stopping when the cap is reached keeps the first `cap` reviews |
| LegacyReviewScraper.StopAsWritten | backend/tools/review_scraper_tool.py:80-81 | stopping at the cap as written, or at the end of the page, yields the specified reviews |
| LegacyReviewScraper.ScrapedAt | backend/tools/review_scraper_tool.py:76-79 | the review at each position is that of the kept element at that position |
| LegacyReviewScraper.SubstantialIsClean | backend/tools/review_scraper_tool.py:76-79 | the stored text of a non-blank review is non-empty and has no surrounding whitespace |
| LegacyReviewScraper.CorrectionAgreesFromOne | backend/tools/review_scraper_tool.py:80-81 | for every cap of at least 1 the loop as written and the corrected loop return the same reviews |
| LegacyReviewScraper.KeptOfFromPage | backend/tools/review_scraper_tool.py:76-79 | every kept review is a non-blank element of the page |
| LegacyReviewScraper.KeptOfDistinct | backend/tools/review_scraper_tool.py:76-79 | the kept stripped texts are pairwise distinct |
| LegacyReviewScraper.KeptOfComplete | backend/tools/review_scraper_tool.py:76-79 | every non-blank text on the page is represented |
| LegacyReviewScraper.StoredTextsAreCleanAndDistinct | backend/tools/review_scraper_tool.py:76-81 | stored texts are stripped, non-empty and pairwise distinct |
| LegacyReviewScraper.WhitespaceVariantsExample | backend/tools/review_scraper_tool.py:76-79 | " 好吃", "好吃" and " " give the single review "好吃" |
| LegacyReviewScraper.WhitespaceVariantsMerged | backend/tools/review_scraper_tool.py:76-79 | texts equal after stripping are stored once and blanks not at all |
| LegacyReviewScraper.GetAllReviews | backend/tools/review_scraper_tool.py:111-116 | a failed run gives no reviews; never more than the cap |
| Embedding.ReviewTexts | backend/recommender/tools/embedding_tool.py:82 | the truthy texts of the reviews; empty iff no review has one |
| Embedding.PreferenceText | backend/recommender/tools/embedding_tool.py:96 | no wishes means the default preference, one wish is itself |
| Embedding.Similarities | backend/recommender/tools/embedding_tool.py:96-101 | one similarity per text, in order |
| Embedding.AnalyzeReviews | backend/recommender/tools/embedding_tool.py:73-124 | no reviews gives the fixed empty report; without an embedder the first three texts are the summary and both scores are 0.5 |
| Embedding.EncodeReviewsToVector | backend/recommender/tools/embedding_tool.py:56-67 | nothing to encode iff no review has text; otherwise the texts are encoded |
| Embedding.MeanBounds | backend/recommender/tools/embedding_tool.py:100-101 | a mean lies between the bounds of its values |
| Embedding.SumBounds | backend/recommender/tools/embedding_tool.py:100-101 | a sum of values within bounds lies within the count times those bounds |
| Embedding.MatchScoreBounds | backend/recommender/tools/embedding_tool.py:73-124 | the match score lies in [-1, 1], and is 0 when no review has text |
| Embedding.PositiveRateBounds | backend/recommender/tools/embedding_tool.py:104-113 | the share of positive labels lies in [0, 1] |
| Embedding.PositiveCount | backend/recommender/tools/embedding_tool.py:104-113 | no more positive labels than texts |
| Embedding.ReportedPositiveRateBounds | backend/recommender/tools/embedding_tool.py:73-124 | the reported positive rate lies in [0, 1] |
| Embedding.PositiveCountExtremes | backend/recommender/tools/embedding_tool.py:104-113 | all texts count iff all are positive, none iff none is |
| Embedding.TopTextsSpec | backend/recommender/tools/embedding_tool.py:115-118 | the summary texts: `min(k, n)` of them, drawn from the texts, in descending similarity, none of the rest more similar |
| LegacyEmbedding.AnalyzeReviews | backend/tools/embedding_tool.py:37-75 | no reviews gives the fixed empty report |
| LegacyEmbedding.EncodeReviewsToVector | backend/tools/embedding_tool.py:20-31 | nothing to encode iff no review has text |
| LegacyEmbedding.AgreesWithRecommender | backend/tools/embedding_tool.py:37-75 | the first version's scores are the recommender's with the embedder loaded |
| LegacyEmbedding.ScoreBounds | backend/tools/embedding_tool.py:37-75 | match score in [-1, 1], positive rate in [0, 1] |
| Agent.FetchSingle | backend/recommender/recommend_agent.py:485-532 | the result and new store are those the specification gives: fresh cached reviews are served, otherwise the scrape is stored |
| Agent.FetchReviewsBatch | backend/recommender/recommend_agent.py:534-568 | the loop's batches and final store are the specification's fold over the restaurants |
| Agent.FetchOne | backend/recommender/recommend_agent.py:485-532 | a restaurant without a name or place id yields nothing and changes nothing; any other yields its batch and stamps its row with the current time |
| Agent.FetchAll | backend/recommender/recommend_agent.py:534-568 | at most one batch per restaurant |
| Agent.FetchOneResult | backend/recommender/recommend_agent.py:485-532 | a fetch yields a batch exactly for a restaurant with a name and a place id, and the batch is that restaurant's |
| Agent.FetchAllKeepsFetchable | backend/recommender/recommend_agent.py:534-568 | one batch per restaurant with a truthy name and place id, in order |
| Agent.FetchableOf | backend/recommender/recommend_agent.py:534-568 | the restaurants fetched are those of the input with a name and a place id, no more of them |
| Agent.RestaurantsOf | backend/recommender/recommend_agent.py:534-568 | the restaurant of each batch, in batch order |
| Agent.ScrapedCount | backend/recommender/recommend_agent.py:485-532 | one scrape never yields more than the agent's cap of reviews |
| Agent.StoredReviewsAreServed | backend/recommender/recommend_agent.py:508-515 | fresh reviews are served as stored, without scraping and without touching the store |
| Agent.FetchOneFrame | backend/recommender/recommend_agent.py:508-532 | a fetch changes no restaurant's reviews but its own |
| Agent.FetchAllStaysBounded | backend/recommender/recommend_agent.py:534-568 | no stored or fetched list exceeds the scraper's cap |
| Agent.Analyzed | backend/recommender/recommend_agent.py:570-637 | one analysed record per batch, each the analysis of its batch |
| Agent.AnalyzeResults | backend/recommender/recommend_agent.py:570-637 | the loop's output equals the specification |
| Agent.FailuresGiveDefaults | backend/recommender/recommend_agent.py:604-637 | a failed analysis gives the default scores, a failed reason the default text |
| Agent.AnalysisBounds | backend/recommender/recommend_agent.py:570-637 | every analysed match score lies in [-1, 1] and positive rate in [0, 1] |
| Ranking.Rank | backend/recommender/recommend_agent.py:1295-1349 | ranking keeps the number of restaurants |
| Ranking.RankingOf | backend/recommender/recommend_agent.py:1258-1349 | no analysed restaurant gives no ranking and no recommendation |
| Ranking.RankIsPermutation | backend/recommender/recommend_agent.py:1295-1349 | the ranking holds the analysed restaurants, each as often |
| Ranking.RankIsOrdered | backend/recommender/recommend_agent.py:1306-1334 | no restaurant scores more than one ranked before it |
| Ranking.RankKeepsTies | backend/recommender/recommend_agent.py:1295-1349 | equal scores keep their input order |
| Ranking.RecommendationsAreTheBest | backend/recommender/recommend_agent.py:1295-1349 | the recommendations are the first three ranked (fewer if fewer) and none of the rest scores higher |
| Ranking.ScoreBounds | backend/recommender/recommend_agent.py:1306-1334 | with scores in their ranges the total lies in [-0.7, 1.05] |
| Ranking.MentionEarnsBonus | backend/recommender/recommend_agent.py:1306-1334 | a wish found in the summary adds exactly the bonus |
| Ranking.MoreWishesNeverLower | backend/recommender/recommend_agent.py:1306-1334 | adding wishes never lowers a score; no wishes, no bonus |
| Ranking.EmptyWishAlwaysEarnsBonus | backend/recommender/recommend_agent.py:1306-1334 | an empty wish gives every restaurant the bonus |
| Dialogue.NodeNamed | backend/recommender/recommend_agent.py:1421-1513 | a name resolves only to the node registered under it |
| Dialogue.NamesRouteBack | backend/recommender/recommend_agent.py:1387-1414 | the name a node writes routes back to that node, and "end" ends the run |
| Dialogue.DialogueNameReadsBack | backend/recommender/recommend_agent.py:1421-1513 | each dialogue node's registered name resolves back to it and is neither "end" nor empty |
| Dialogue.SearchNameReadsBack | backend/recommender/recommend_agent.py:1421-1513 | the same for each node of the search pipeline |
| Dialogue.RouteNext | backend/recommender/recommend_agent.py:1387-1414 | a missing, empty or "end" successor ends the run |
| Dialogue.Merge | backend/server.py:88 | the merged state has the patch's successor and the same user input, and an explicit null location clears the slot |
| Dialogue.MergeIsIdempotent | backend/server.py:88 | merging a patch twice is merging it once |
| Dialogue.MergeMessage | backend/server.py:88 | a patch with only a successor and a message changes only those two slots |
| Dialogue.RequestPatch | backend/recommender/recommend_agent.py:757-806 | the preferences are always replaced, location and category only when the parsed value is non-empty; the turn moves on to validation exactly when both slots are then known, else it ends asking; no flag changes |
| Dialogue.ParseInputPatch | backend/recommender/recommend_agent.py:701-806 | a pending confirmation or preference question is answered first, confirmation before preference |
| Dialogue.PreferenceResponsePatch | backend/recommender/recommend_agent.py:901-956 | the answer always moves on to the final confirmation and lowers the preference flag; the preferences are replaced exactly when the answer is not a skip word and parses with non-empty preferences, and then by their classification; location and category are kept |
| Dialogue.ValidateLocationPatch | backend/recommender/recommend_agent.py:809-845 | a location too large ends the turn, sets the location to None and explains; otherwise the turn goes on to the confirmation node unchanged; category and preferences are kept |
| Dialogue.ConfirmPatch | backend/recommender/recommend_agent.py:847-865 | the confirmation node hands on to the preference question and changes nothing else |
| Dialogue.AskPreferencePatch | backend/recommender/recommend_agent.py:868-898 | the question ends the turn with a message and raises the preference flag, leaving the slots alone |
| Dialogue.PreferenceLine | backend/recommender/recommend_agent.py:992-998 | the preference line is empty exactly when there are no constraints and no wishes |
| Dialogue.Codes | backend/recommender/recommend_agent.py:992-998 | one code per constraint, in order |
| Dialogue.FinalConfirmPatch | backend/recommender/recommend_agent.py:959-1004 | the final confirmation ends the turn with a message and raises the confirmation flag, leaving the slots alone |
| Dialogue.ConfirmResponsePatch | backend/recommender/recommend_agent.py:1007-1068 | the confirmation flag is lowered on every path; a yes word goes to the search, a no word ends the turn clearing location and category with the cancel message, anything else goes back to the parser; the preferences are kept |
| Dialogue.Found | backend/recommender/recommend_agent.py:1110-1113 | the search of the node yields at most ten restaurants |
| Dialogue.Kept | backend/recommender/recommend_agent.py:1122-1142 | the kept list is empty only when nothing was found |
| Dialogue.PlaceSearchPatch | backend/recommender/recommend_agent.py:1070-1150 | an empty search ends the turn with the retry message; otherwise the kept restaurants are stored and the turn goes on to the review fetch |
| Dialogue.ReviewFetchPatch | backend/recommender/recommend_agent.py:1153-1201 | no restaurants ends the turn with a message; no fetched batch sends the restaurants unanalysed to the ranking; otherwise the batches go to the analysis |
| Dialogue.AnalysisPatch | backend/recommender/recommend_agent.py:1204-1255 | the analysis always goes on to the ranking, with one record per batch, or the earlier records when there is no batch |
| Dialogue.RankingPatch | backend/recommender/recommend_agent.py:1258-1349 | the ranking keeps every analysed record and recommends the first three ranked (fewer when there are fewer) |
| Dialogue.ResponsePatch | backend/recommender/recommend_agent.py:1352-1381 | the response always ends the turn: without recommendations with the no-result message, otherwise handing on the recommendations with no message |
| Dialogue.PatchOf | backend/recommender/recommend_agent.py:1421-1513 | only the search node can raise, and only when its search raises |
| Dialogue.OnlyQuestionsWait | backend/recommender/recommend_agent.py:868-1068 | the preference question is the only node that raises the preference flag, the final confirmation the only one that raises the confirmation flag |
| Dialogue.ConfirmResponseProgress | backend/recommender/recommend_agent.py:1007-1068 | the confirmation answer lowers its flag and moves on, so the turn cannot loop |
| Dialogue.Descends | backend/recommender/recommend_agent.py:1421-1513 | a patch that leaves both flags alone and moves down the graph lowers the measure |
| Dialogue.ParseInputProgress | backend/recommender/recommend_agent.py:701-806 | the parser's successor is entered as the graph requires, with a lower measure |
| Dialogue.PreferenceResponseProgress | backend/recommender/recommend_agent.py:901-956 | the preference answer lowers its flag and moves on |
| Dialogue.ValidateLocationProgress | backend/recommender/recommend_agent.py:809-845 | the validation moves down the graph |
| Dialogue.ConfirmProgress | backend/recommender/recommend_agent.py:847-865 | the confirmation node moves down the graph |
| Dialogue.AskPreferenceProgress | backend/recommender/recommend_agent.py:868-898 | the question ends the turn with at most one question pending |
| Dialogue.FinalConfirmProgress | backend/recommender/recommend_agent.py:959-1004 | the final confirmation ends the turn with at most one question pending |
| Dialogue.PlaceSearchProgress | backend/recommender/recommend_agent.py:1070-1150 | the search moves down the graph |
| Dialogue.ReviewFetchProgress | backend/recommender/recommend_agent.py:1153-1201 | the review fetch moves down the graph |
| Dialogue.AnalysisProgress | backend/recommender/recommend_agent.py:1204-1255 | the analysis moves down the graph |
| Dialogue.RankingProgress | backend/recommender/recommend_agent.py:1258-1349 | the ranking moves down the graph |
| Dialogue.ResponseProgress | backend/recommender/recommend_agent.py:1352-1381 | the response ends the turn |
| Dialogue.PipelineProgress | backend/recommender/recommend_agent.py:1070-1381 | every node of the search pipeline that does not raise moves down the graph |
| Dialogue.DialogueProgress | backend/recommender/recommend_agent.py:701-1068 | every dialogue node entered as the graph enters it has a patch that lowers the measure |
| Dialogue.Bare | backend/recommender/recommend_agent.py:1153-1201 | restaurants without reviews enter the analysis with no scores |
| Dialogue.KeptPassOrAll | backend/recommender/recommend_agent.py:1122-1142 | the kept restaurants all pass the constraints, unless none does and all are kept |
| Dialogue.Step | backend/recommender/recommend_agent.py:701-1381 | running a node gives the specified patch, store and added records |
| Dialogue.StepProgress | backend/recommender/recommend_agent.py:1421-1513 | every edge of the graph lowers the measure, so no turn loops |
| Dialogue.PlaceSearchStep | backend/recommender/recommend_agent.py:1070-1150 | a failed search raises and writes nothing; otherwise the patch is the specified one and every kept restaurant is upserted |
| Dialogue.UpsertAll | backend/recommender/recommend_agent.py:1144-1146 | the loop upserts the restaurants in order, changing no reviews and no records |
| Dialogue.ReviewFetchStep | backend/recommender/recommend_agent.py:1153-1201 | the patch and the new store are those of the specification |
| Dialogue.AnalysisStep | backend/recommender/recommend_agent.py:1204-1255 | the analysis loop gives the specified patch |
| Dialogue.RankingStep | backend/recommender/recommend_agent.py:1258-1349 | the ranking gives the specified patch and logs exactly the specified record, touching no row or review |
| Dialogue.Continue | backend/server.py:80-145 | a completed turn ends at "end" with the input cleared; an aborted one keeps it; at most one question stays pending |
| Dialogue.TracksStep | backend/server.py:80-145 | after a node's patch is merged the rest of the turn is what remains of the whole, and less of the turn is left |
| Dialogue.TracksAbort | backend/server.py:80-145 | a node that raises ends the turn with the state and store as they are |
| Dialogue.TracksQuietStep | backend/server.py:80-145 | a node that writes nothing moves the turn on by its patch alone |
| Dialogue.TracksFinish | backend/server.py:80-145 | a turn that reaches the end is complete, with the input cleared and the store and records as accumulated |
| Dialogue.RaisesQuietly | backend/server.py:80-145 | a node that raises writes nothing |
| Dialogue.Quiet | backend/server.py:80-145 | the nodes other than the search, the fetch and the ranking write nothing |
| Dialogue.TurnTracks | backend/server.py:80-145 | a turn starts at the parser with the input stored and nothing logged |
| Dialogue.Advance | backend/server.py:80-145 | one pass of the driver's loop logs exactly the node's records and either ends an aborted turn or continues the specified turn with less left |
| Dialogue.RunTurn | backend/server.py:80-145 | the turn loop's state, outcome, store and records equal the recursive specification `Turn` |
| Dialogue.NonFoodTurn | backend/recommender/recommend_agent.py:743-748 | a message not about food ends the turn with the refusal, no slot changed and nothing stored |
| Dialogue.NonFoodEnds | backend/recommender/recommend_agent.py:743-748 | from the parser, a message marked unrelated to food ends the turn with the refusal message |
| Dialogue.AnswerGoesToConfirmResponse | backend/recommender/recommend_agent.py:733-736 | while the final confirmation waits, the parser hands the answer to the confirmation node |
| Dialogue.RefusalCancels | backend/recommender/recommend_agent.py:1039-1063 | a refusal at the confirmation node clears location and category, lowers the flag and stores nothing |
| Dialogue.CancelTurn | backend/recommender/recommend_agent.py:1039-1063 | refusing the final confirmation clears location and category, lowers the flag and stores nothing |
| Dialogue.FullRequestValidates | backend/recommender/recommend_agent.py:757-806 | a parsed request naming both slots writes them and goes on to the validation |
| Dialogue.ValidatedAsksPreference | backend/recommender/recommend_agent.py:809-898 | a location that is not too large is confirmed and the turn ends asking for preferences |
| Dialogue.ConfirmAsksPreference | backend/recommender/recommend_agent.py:847-898 | from the confirmation node the turn ends asking for preferences, with nothing stored |
| Dialogue.AskPreferenceEnds | backend/recommender/recommend_agent.py:868-898 | the preference question ends the turn waiting for the answer |
| Dialogue.FullRequestAsksPreference | backend/recommender/recommend_agent.py:757-898 | a full request for a small enough area ends the turn asking for preferences, with nothing stored |
| LegacyAgent.Cached | backend/recommend_agent.py:46-53 | a cache hit returns the file's own reviews |
| LegacyAgent.FreshCacheIsServed | backend/recommend_agent.py:46-64 | non-empty cached reviews under 31 days old are served without scraping |
| LegacyAgent.StaleCacheIsIgnored | backend/recommend_agent.py:46-53 | a file 31 days old or older is never used |
| LegacyAgent.FetchOne | backend/recommend_agent.py:56-64 | no reviews leave the cache as it was; a changed cache differs only in the restaurant's own file, holding the reviews returned, stamped now |
| LegacyAgent.FetchAll | backend/recommend_agent.py:67-79 | at most one batch per restaurant |
| LegacyAgent.FetchOneSavesOnlyScrapes | backend/recommend_agent.py:56-64 | only the fetched restaurant's file can change, and only to a non-empty scrape stamped now |
| LegacyAgent.FetchAllKeepsNonEmpty | backend/recommend_agent.py:67-79 | at most one batch per restaurant, each with reviews |
| LegacyAgent.ChunkStep | backend/recommend_agent.py:141-160 | fetching the next chunk after a prefix gathers what fetching the longer prefix gathers |
| LegacyAgent.FetchAllAppend | backend/recommend_agent.py:141-160 | fetching two lists one after the other is fetching their concatenation |
| LegacyAgent.RecommendAgent.constructor | backend/recommend_agent.py:33-43 | the agent starts from the given cache |
| LegacyAgent.RecommendAgent.FetchSingle | backend/recommend_agent.py:56-64 | the batch and the new cache are those of the specification |
| LegacyAgent.RecommendAgent.FetchReviewsBatch | backend/recommend_agent.py:67-79 | the loop's batches and cache are the specification's fold |
| LegacyAgent.RecommendAgent.FetchInChunks | backend/recommend_agent.py:141-160 | fetching in chunks of three gives the same batches and cache as one pass |
| LegacyAgent.StartPatch | backend/recommend_agent.py:103-120 | the run searches or retries, and searches only with both slots given |
| LegacyAgent.StartSearchesExactly | backend/recommend_agent.py:103-120 | the search starts exactly when both slots are truthy and the area is not too large |
| LegacyAgent.LocationIsCheckedFirst | backend/recommend_agent.py:103-120 | a missing location is reported before a missing category |
| LegacyAgent.PlaceSearchPatch | backend/recommend_agent.py:124-137 | an empty search goes to the retry node with its message; otherwise the found restaurants, at most ten, go to the review fetch |
| LegacyAgent.ReviewFetchPatch | backend/recommend_agent.py:141-160 | no batch goes to the retry node with the fetch-failed message; otherwise the batches go to the analysis |
| LegacyAgent.AnalysisOf | backend/recommend_agent.py:82-99 | the analysed record is for the batch's restaurant and carries an analysis |
| LegacyAgent.VectorAnalysisPatch | backend/recommend_agent.py:164-181 | the node raises exactly when the models raise on some batch with reviews; otherwise it goes on to the ranking with one record per batch |
| LegacyAgent.RankingPatch | backend/recommend_agent.py:185-221 | the ranking goes on to the response with the first three ranked records (fewer when there are fewer) |
| LegacyAgent.LegacyRank | backend/recommend_agent.py:185-221 | the ranking keeps the number of records |
| LegacyAgent.AnalyzedAll | backend/recommend_agent.py:164-181 | one analysed record per batch |
| LegacyAgent.AnalyzedAllAt | backend/recommend_agent.py:164-181 | each record is the analysis of its own batch, for that batch's restaurant |
| LegacyAgent.AnalyzedAllStep | backend/recommend_agent.py:174-178 | one more pass of the loop appends that batch's record, and a batch that raises makes the whole analysis raise |
| LegacyAgent.VectorAnalysis | backend/recommend_agent.py:164-181 | the loop stops exactly when some batch raises, and otherwise returns the specified records |
| LegacyAgent.RankingHasNoBonus | backend/recommend_agent.py:185-221 | the ranking permutes the records in descending score, with no wish bonus |
| LegacyAgent.RecommendationsAreTheFirstThree | backend/recommend_agent.py:185-221 | the recommendations are the first three ranked and none of the rest scores higher |
| LegacyAgent.ResponsePatch | backend/recommend_agent.py:225-240 | a reply exists iff there are at most three recommendations, and it ends the run with a message |
| LegacyAgent.RetryPatch | backend/recommend_agent.py:244-247 | the retry node ends the run with a non-empty message, the pending one when there is one |
| LegacyAgent.RetryShowsTheReason | backend/recommend_agent.py:103-247 | every route to the retry node carries a reason, and the retry node shows it |
| LegacyAgent.PipelineDescends | backend/recommend_agent.py:263-294 | every edge goes further down the pipeline |
| LegacyAgent.Step | backend/recommend_agent.py:103-247 | only the review fetch changes the cache, exactly as specified |
| LegacyAgent.PatchAt | backend/recommend_agent.py:263-294 | every node hands on further down the pipeline, and only the retry and response nodes end the run, each with a message |
| LegacyAgent.Run | backend/recommend_agent.py:263-294 | a run that completes ends at the end with a message |
| LegacyAgent.RunStopsOnlyInAnalysis | backend/recommend_agent.py:164-181 | from any node a run can meet, it stops short of the end exactly when the analysis raises, standing at the analysis node with those batches |
| LegacyAgent.EndsWithMessage | backend/recommend_agent.py:225-247 | the retry and response nodes end the run with a message |
| LegacyAgent.Merge | backend/recommend_agent.py:263-294 | the merged state records the patch's successor |
| LegacyAgent.Invoke | backend/recommend_agent.py:263-294 | the loop ends with the state, the completion flag and the cache of the specified run from the start node; a completed run ends at the end with a message |
| LegacyAgent.InvokeStopsOnlyInAnalysis | backend/recommend_agent.py:263-294 | a run from the start completes unless the analysis raises on some fetched batch |

## Left out

- Network, browser, database and file I/O are left out. Each call's outcome is
  a parameter of the model: a status, a response or a failure.
- `time.sleep`, scrolling and the scraper's time budget are left out. The page
  is given as its final sequence of elements.
- The language-model prompts and `generate_reason` are left out. Their
  replies are oracles in the model's `World` parameters.
- Embeddings, cosine similarity and the sentiment model are left out. They
  enter as a similarity function and a labelling function.
- Rounding scores to three decimals is left out. Real arithmetic is exact
  here; rounding does not change the bounds proved.
- `np.argsort` tie order among equal similarities is left out. `TopTexts`
  uses a stable sort; the property proved does not depend on ties.
- Agent.FetchReviewsBatch: the thread pool returns results in completion
  order. The model uses list order, so the source's result is a permutation
  of the model's.
- LegacyAgent.RecommendAgent.FetchInChunks: the same thread-pool ordering
  note applies within each chunk.
- Stdout and the JSON, vector and recommendation files written beside the
  database are left out. This includes `latest_recommendation`.
- Text.Lower maps only ASCII letters. Python's full Unicode case folding is
  not modelled; the constraint words are CJK or ASCII.
- The place tool's second API-key check is left out. The key is read once
  before the check, so that branch cannot be taken.
- The star pattern `\d` is matched as an ASCII digit only; Python also
  accepts other Unicode decimal digits.
- A non-string JSON value for a slot is left out, as is a decoder result
  that is not an object. Both count as a failed decode.
- The first version's TypeError paths are modelled as empty lists. These are
  the paths where `restaurants`, `review_batches` or `analyzed` is None, and
  they cannot be reached from its graph.
- The first version's per-restaurant exception branch in
  `fetch_reviews_batch` is left out. Records always carry both keys.
- The first version formats ratings as floats. This enters as the
  `showRating` parameter.
- The console test script's merge, which skips None values, is left out.
  Only the server's `dict.update` is modelled.
- ReviewScraper.GetAllReviews: uses the corrected cap of the Findings table.
  For `max_reviews < 1` the source collects one review and the model none.
  The agent passes 80, where `ReviewScraper.CorrectionAgreesFromOne` shows
  both agree.
- LegacyReviewScraper.GetAllReviews: the same corrected cap. The first
  version passes 100, where `LegacyReviewScraper.CorrectionAgreesFromOne`
  shows both agree.
- The `except Exception: return 0.0` around the ranking score is left out.
  The score is a sum of reals in the model and cannot raise.
- Dialogue.Continue: a route name that resolves to no node aborts the turn.
  No node ever writes such a name.
- Dialogue.RunTurn: an exception inside a node aborts the turn with the slots
  as merged so far. The IndexError from `ranked[:3]` on a non-list is not
  reachable in the model.
- `main.py`, the test scripts and the web socket transport are not part of
  this model.

## Findings

| source | as written | input that shows it | evidently intended | confidence | as-written member | corrected member |
|---|---|---|---|---|---|---|
| backend/recommender/tools/review_scraper_tool.py:110-115 | the cap is tested only after a review is appended, so a cap of 0 (or less) still collects one review | `max_reviews = 0`, a page with one readable review "好吃" | at most `max_reviews` reviews, none for a cap of 0 | not executed | ReviewScraper.ZeroCapStillCollectsOne | ReviewScraper.ExtractReviews |
| backend/tools/review_scraper_tool.py:76-81 | the same cap check after the append in the first version | `max_reviews = 0`, a page with one review "好吃" | at most `max_reviews` reviews | not executed | LegacyReviewScraper.ZeroCapStillCollectsOne | LegacyReviewScraper.ExtractReviews |
