/** The multi-turn dialogue of the recommender. Its state is updated by
    twelve nodes; each node reads the state and returns a patch naming the
    node to run next, which is merged into the state the way a dictionary
    update merges (a key present with `None` overwrites). A turn starts at
    the input parser and runs nodes until one names "end". Whatever a
    collaborator decides (the language model, the JSON decoder, the Google
    requests, the scraper, the review analysis, the clock) is an input
    collected in a `World`. */
module Dialogue {
  import opened Wrappers
  import opened Text
  import opened Records
  import opened Store
  import opened Preferences
  import opened PlaceInfo
  import opened ReviewScraper
  import opened Agent
  import opened Ranking
  import opened Sorting
  import opened UserInput

  // ------------------------------------------------------------- messages

  const NonFoodMessage: string := "我只能幫你推薦餐廳喔！請告訴我想在哪裡吃什麼類型的餐廳～\n例如：「想在信義區吃火鍋」"
  const NotUnderstoodMessage: string := "我不太懂你的意思，可以換個方式說嗎？\n例如：「想在信義區吃火鍋」"
  const AskWhereAndWhatMessage: string := "想在哪裡吃什麼類型的餐廳呢？\n例如：「信義區的火鍋」或「西門町日本料理」"
  const CancelledMessage: string := "好的，已取消！請重新告訴我想在哪裡吃什麼類型的餐廳～"
  const NothingFoundMessage: string := "找不到符合條件的餐廳，要不要換個地點或類型試試？"
  const NothingToFetchMessage: string := "找不到相關餐廳"
  const NoRecommendationMessage: string := "找不到符合條件的餐廳"

  function AskWhereMessage(category: string): string {
    "想在哪裡吃" + category + "呢？\n例如：信義區、大安區、西門町"
  }

  function AskWhatMessage(location: string): string {
    "想在" + location + "吃什麼類型的餐廳呢？\n例如：火鍋、壽司、燒肉、義式料理"
  }

  function TooLargeMessage(location: string): string {
    "「" + location + "」範圍太大了，可以說得更具體一點嗎？\n例如：信義區、大安區、西門町附近"
  }

  function AskPreferenceMessage(location: string, category: string): string {
    "好的！要搜尋「" + location + "」的「" + category + "」\n\n有什麼特別偏好嗎？\n例如：不吃辣、吃素、大份量、安靜環境\n\n（沒有的話請回答「沒有」或「開始搜尋」）"
  }

  function FinalConfirmMessage(location: string, category: string, prefText: string): string {
    "確認要搜尋：\n地點：" + location + "\n類型：" + category + prefText + "\n\n確定嗎？（是/否）"
  }

  /** Answers that mean "no preferences, go ahead". */
  const SkipWords: seq<string> := ["沒有", "没有", "無", "无", "no", "none", "開始搜尋", "开始搜寻", "搜尋", "搜寻", "開始", "开始"]
  /** Answers that confirm the search. */
  const YesWords: seq<string> := ["是", "yes", "ok", "好", "對", "確定", "嗯", "恩"]
  /** Answers that cancel it. */
  const NoWords: seq<string> := ["否", "不要", "no", "取消", "不是"]
  /** How many results the place search asks for. */
  const SearchSize: int := 10

  /** How a Python f-string prints an optional text. */
  function PyStr(s: Option<string>): string {
    if s.Some? then s.value else "None"
  }

  // ------------------------------------------------------- state, patches

  datatype Node =
    | ParseInputNode | ValidateLocationNode | ConfirmNode | AskPreferenceNode
    | PreferenceResponseNode | FinalConfirmNode | ConfirmResponseNode | PlaceSearchNode
    | ReviewFetchNode | AnalysisNode | RankingNode | ResponseNode

  /** The name a node is registered and routed under. */
  function NodeName(n: Node): string {
    match n
    case ParseInputNode => "parse_input_node"
    case ValidateLocationNode => "validate_location_node"
    case ConfirmNode => "confirm_node"
    case AskPreferenceNode => "ask_preference_node"
    case PreferenceResponseNode => "preference_response_node"
    case FinalConfirmNode => "final_confirm_node"
    case ConfirmResponseNode => "confirm_response_node"
    case PlaceSearchNode => "place_search_node"
    case ReviewFetchNode => "review_fetch_node"
    case AnalysisNode => "analysis_node"
    case RankingNode => "ranking_node"
    case ResponseNode => "response_node"
  }

  /** The node registered under a name, if any. */
  function NodeNamed(name: string): (r: Option<Node>)
    ensures r.Some? ==> NodeName(r.value) == name
  {
    if name == "parse_input_node" then Some(ParseInputNode)
    else if name == "validate_location_node" then Some(ValidateLocationNode)
    else if name == "confirm_node" then Some(ConfirmNode)
    else if name == "ask_preference_node" then Some(AskPreferenceNode)
    else if name == "preference_response_node" then Some(PreferenceResponseNode)
    else if name == "final_confirm_node" then Some(FinalConfirmNode)
    else if name == "confirm_response_node" then Some(ConfirmResponseNode)
    else if name == "place_search_node" then Some(PlaceSearchNode)
    else if name == "review_fetch_node" then Some(ReviewFetchNode)
    else if name == "analysis_node" then Some(AnalysisNode)
    else if name == "ranking_node" then Some(RankingNode)
    else if name == "response_node" then Some(ResponseNode)
    else None
  }

  /** What a node names as its successor. */
  datatype Next = End | Goto(node: Node)

  function NextName(n: Next): string {
    match n
    case End => "end"
    case Goto(m) => NodeName(m)
  }

  /** `RecommendState`. */
  datatype State = State(
    userInput: Option<string>,
    location: Option<string>,
    category: Option<string>,
    preferences: Option<Prefs>,
    restaurants: Option<seq<Place>>,
    reviewBatches: Option<seq<Batch>>,
    analyzed: Option<seq<Entry>>,
    recommendations: Option<seq<Entry>>,
    ranked: seq<Entry>,
    next: Option<string>,
    message: Option<string>,
    waitingForConfirmation: bool,
    waitingForPreference: bool)

  /** The state a new connection starts with. */
  const Initial: State := State(None, None, None, None, None, None, None, None, [], None, None, false, false)

  /** A node's result: `next` always, every other key possibly absent
      (`None`); for the nullable slots a present key may hold null
      (`Some(None)`). */
  datatype Patch = Patch(
    next: Next,
    location: Option<Option<string>>,
    category: Option<Option<string>>,
    preferences: Option<Prefs>,
    restaurants: Option<seq<Place>>,
    reviewBatches: Option<seq<Batch>>,
    analyzed: Option<seq<Entry>>,
    recommendations: Option<seq<Entry>>,
    ranked: Option<seq<Entry>>,
    message: Option<string>,
    waitingForConfirmation: Option<bool>,
    waitingForPreference: Option<bool>)

  /** The patch holding only `next`. */
  function Go(next: Next): Patch {
    Patch(next, None, None, None, None, None, None, None, None, None, None, None)
  }

  /** A present value replaces the old one; an absent one keeps it. */
  function Over<T>(prev: T, given: Option<T>): T {
    if given.Some? then given.value else prev
  }

  /** A present value replaces a nullable slot; an absent one keeps it. */
  function OverSome<T>(prev: Option<T>, given: Option<T>): Option<T> {
    if given.Some? then given else prev
  }

  /** `state.update(patch)`. */
  function Merge(s: State, p: Patch): (r: State)
    ensures r.next == Some(NextName(p.next))
    ensures r.userInput == s.userInput
    ensures p.location == Some(None) ==> r.location.None?
  {
    State(
      s.userInput,
      Over(s.location, p.location),
      Over(s.category, p.category),
      OverSome(s.preferences, p.preferences),
      OverSome(s.restaurants, p.restaurants),
      OverSome(s.reviewBatches, p.reviewBatches),
      OverSome(s.analyzed, p.analyzed),
      OverSome(s.recommendations, p.recommendations),
      Over(s.ranked, p.ranked),
      Some(NextName(p.next)),
      OverSome(s.message, p.message),
      Over(s.waitingForConfirmation, p.waitingForConfirmation),
      Over(s.waitingForPreference, p.waitingForPreference))
  }

  /** Where the graph goes after a node: `route_next`. */
  datatype Route = Finish | Run(node: Node) | Unknown(name: string)

  function RouteNext(next: Option<string>): (r: Route)
    ensures next.None? || next == Some("end") || next == Some("") ==> r == Finish
  {
    if next.None? || next.value == "end" || next.value == "" then Finish
    else match NodeNamed(next.value)
      case Some(n) => Run(n)
      case None => Unknown(next.value)
  }

  // ------------------------------------------------------------ the world

  /** The collaborators' answers. The language model answers a prompt about
      a text; the decoder turns a JSON text into an object; the Google
      requests, the scrape runs and the analysis models are as in their
      modules; `recordFails` says whether the recommendation log refuses
      its commit. */
  datatype World = World(
    intent: string -> Option<string>,
    reply: string -> Option<string>,
    decode: string -> Option<Decoded>,
    geocode: string -> PlaceInfo.Fetched<GeoResponse>,
    nearby: (string, string) -> PlaceInfo.Fetched<SearchResponse>,
    details: string -> Option<Details>,
    runs: string -> ScrapeRun,
    models: Models,
    recordFails: bool)

  function StrongOf(s: State): seq<StrongTag> {
    if s.preferences.Some? then s.preferences.value.strong else []
  }

  function WeakOf(s: State): seq<string> {
    if s.preferences.Some? then s.preferences.value.weak else []
  }

  function Codes(tags: seq<StrongTag>): (r: seq<string>)
    ensures |r| == |tags|
    ensures forall i :: 0 <= i < |tags| ==> r[i] == tags[i].Code()
  {
    if tags == [] then [] else Codes(tags[..|tags| - 1]) + [tags[|tags| - 1].Code()]
  }

  // ---------------------------------------------------------------- nodes

  /** `parse_input_node`, after the waiting checks and the intent check: the
      new slots are written only when non-empty, the preferences always,
      and the turn goes on to validation only when both slots are known. */
  function RequestPatch(s: State, req: Request): (r: Patch)
    ensures r.waitingForConfirmation.None? && r.waitingForPreference.None?
    ensures r.next.End? || r.next == Goto(ValidateLocationNode)
    ensures r.next.Goto? <==> Truthy(Over(s.location, r.location)) && Truthy(Over(s.category, r.category))
    ensures r.preferences == Some(Classified(req.preferences))
    ensures Truthy(req.location) ==> r.location == Some(req.location)
    ensures !Truthy(req.location) ==> r.location.None?
    ensures Truthy(req.category) ==> r.category == Some(req.category)
    ensures !Truthy(req.category) ==> r.category.None?
  {
    var loc := if Truthy(req.location) then req.location else s.location;
    var cat := if Truthy(req.category) then req.category else s.category;
    var updates := Go(End).(
      preferences := Some(Classified(req.preferences)),
      location := if Truthy(req.location) then Some(req.location) else None,
      category := if Truthy(req.category) then Some(req.category) else None);
    if !Truthy(loc) && !Truthy(cat) then updates.(message := Some(AskWhereAndWhatMessage))
    else if Truthy(cat) && !Truthy(loc) then updates.(message := Some(AskWhereMessage(cat.value)))
    else if Truthy(loc) && !Truthy(cat) then updates.(message := Some(AskWhatMessage(loc.value)))
    else updates.(next := Goto(ValidateLocationNode))
  }

  /** `parse_input_node`. */
  function ParseInputPatch(s: State, w: World): (r: Patch)
    ensures r.waitingForConfirmation.None? && r.waitingForPreference.None?
    ensures s.waitingForConfirmation ==> r == Go(Goto(ConfirmResponseNode))
    ensures !s.waitingForConfirmation && s.waitingForPreference ==> r == Go(Goto(PreferenceResponseNode))
    ensures r.next.Goto? && r.next.node != ConfirmResponseNode && r.next.node != PreferenceResponseNode ==>
              r.next == Goto(ValidateLocationNode) && !s.waitingForConfirmation && !s.waitingForPreference
  {
    var text := Strip(s.userInput.GetOr(""));
    if s.waitingForConfirmation then Go(Goto(ConfirmResponseNode))
    else if s.waitingForPreference then Go(Goto(PreferenceResponseNode))
    else if DetectNonFoodIntent(w.intent(text)) then Go(End).(message := Some(NonFoodMessage))
    else match ParseUserInput(w.reply(text), w.decode)
      case None => Go(End).(message := Some(NotUnderstoodMessage))
      case Some(req) => RequestPatch(s, req)
  }

  /** `validate_location_node`: a location that is too large is cleared. */
  function ValidateLocationPatch(s: State, w: World): (r: Patch)
    ensures var loc := s.location.GetOr(""); PlaceInfo.LocationIsTooLarge(loc, w.geocode(loc)) <==> r.next == End
    ensures r.next == End ==> r.location == Some(None) && r.message.Some?
    ensures r.next != End ==> r == Go(Goto(ConfirmNode))
    ensures r.category.None? && r.preferences.None?
  {
    var loc := s.location.GetOr("");
    if PlaceInfo.LocationIsTooLarge(loc, w.geocode(loc)) then
      Go(End).(location := Some(None), message := Some(TooLargeMessage(PyStr(s.location))))
    else Go(Goto(ConfirmNode))
  }

  /** `confirm_node`. */
  function ConfirmPatch(s: State): (r: Patch)
    ensures r.next == Goto(AskPreferenceNode)
    ensures r.waitingForConfirmation.None? && r.waitingForPreference.None? && r.message.None?
  {
    Go(Goto(AskPreferenceNode))
  }

  /** `ask_preference_node`: asks, and waits for the answer. */
  function AskPreferencePatch(s: State): (r: Patch)
    ensures r.next == End && r.message.Some?
    ensures r.waitingForPreference == Some(true) && r.waitingForConfirmation.None?
    ensures r.location.None? && r.category.None? && r.preferences.None?
  {
    Go(End).(waitingForPreference := Some(true),
             message := Some(AskPreferenceMessage(PyStr(s.location), PyStr(s.category))))
  }

  /** `preference_response_node`: a skip word, a failed parse or a parse
      without preferences leave the preferences alone. */
  function PreferenceResponsePatch(s: State, w: World): (r: Patch)
    ensures r.next == Goto(FinalConfirmNode)
    ensures r.waitingForPreference == Some(false) && r.waitingForConfirmation.None?
    ensures r.location.None? && r.category.None?
    ensures var parsed := ParseUserInput(w.reply(PyStr(s.userInput)), w.decode);
            r.preferences.Some? <==>
              Lower(Strip(s.userInput.GetOr(""))) !in SkipWords && parsed.Some? && parsed.value.preferences != []
    ensures var parsed := ParseUserInput(w.reply(PyStr(s.userInput)), w.decode);
            r.preferences.Some? ==> r.preferences == Some(Classified(parsed.value.preferences))
  {
    var text := Lower(Strip(s.userInput.GetOr("")));
    var done := Go(Goto(FinalConfirmNode)).(waitingForPreference := Some(false));
    if text in SkipWords then done
    else match ParseUserInput(w.reply(PyStr(s.userInput)), w.decode)
      case Some(req) =>
        if req.preferences != [] then done.(preferences := Some(Classified(req.preferences))) else done
      case None => done
  }

  /** The preference line of the final confirmation: constraint codes, then
      wishes, comma-separated; nothing when there are none. */
  function PreferenceLine(s: State): (r: string)
    ensures r == "" <==> StrongOf(s) == [] && WeakOf(s) == []
  {
    var all := Codes(StrongOf(s)) + WeakOf(s);
    if all == [] then "" else "\n偏好：" + Join(", ", all)
  }

  /** `final_confirm_node`: shows the search, and waits for a yes or no. */
  function FinalConfirmPatch(s: State): (r: Patch)
    ensures r.next == End && r.message.Some?
    ensures r.waitingForConfirmation == Some(true) && r.waitingForPreference.None?
    ensures r.location.None? && r.category.None? && r.preferences.None?
  {
    Go(End).(waitingForConfirmation := Some(true),
             message := Some(FinalConfirmMessage(PyStr(s.location), PyStr(s.category), PreferenceLine(s))))
  }

  /** `confirm_response_node`. */
  function ConfirmResponsePatch(s: State): (r: Patch)
    ensures r.waitingForConfirmation == Some(false) && r.waitingForPreference.None? && r.preferences.None?
    ensures var text := Lower(Strip(s.userInput.GetOr("")));
            text in YesWords ==> r.next == Goto(PlaceSearchNode) && r.location.None? && r.category.None?
    ensures var text := Lower(Strip(s.userInput.GetOr("")));
            text !in YesWords && text in NoWords ==>
              r.next == End && r.location == Some(None) && r.category == Some(None) && r.message == Some(CancelledMessage)
    ensures var text := Lower(Strip(s.userInput.GetOr("")));
            text !in YesWords && text !in NoWords ==>
              r.next == Goto(ParseInputNode) && r.location.None? && r.category.None?
  {
    var text := Lower(Strip(s.userInput.GetOr("")));
    if text in YesWords then Go(Goto(PlaceSearchNode)).(waitingForConfirmation := Some(false))
    else if text in NoWords then
      Go(End).(location := Some(None), category := Some(None), waitingForConfirmation := Some(false),
               message := Some(CancelledMessage))
    else Go(Goto(ParseInputNode)).(waitingForConfirmation := Some(false))
  }

  /** The place search of `place_search_node`; `None` when it raises. */
  function Found(s: State, w: World): (r: Option<seq<Place>>)
    ensures r.Some? ==> |r.value| <= SearchSize
  {
    var loc := s.location.GetOr("");
    var cat := s.category.GetOr("");
    SearchBound(w.geocode(loc), w.nearby(loc, cat), w.details, SearchSize);
    SearchResult(w.geocode(loc), w.nearby(loc, cat), w.details, SearchSize)
  }

  /** The restaurants `place_search_node` keeps: those passing every
      constraint, or all of them when none passes. */
  function Kept(s: State, found: seq<Place>): (r: seq<Place>)
    ensures r == [] <==> found == []
  {
    var filtered := Passing(found, StrongOf(s));
    if filtered == [] then found else filtered
  }

  /** `place_search_node`, given what the search found. */
  function PlaceSearchPatch(s: State, found: seq<Place>): (r: Patch)
    ensures found == [] <==> r.next == End
    ensures found == [] ==> r.message == Some(NothingFoundMessage) && r.restaurants.None?
    ensures found != [] ==> r.next == Goto(ReviewFetchNode) && r.restaurants == Some(Kept(s, found)) && r.message.None?
  {
    if found == [] then Go(End).(message := Some(NothingFoundMessage))
    else Go(Goto(ReviewFetchNode)).(restaurants := Some(Kept(s, found)))
  }

  /** Restaurants without an analysis, as ranked when no review was fetched. */
  function Bare(ps: seq<Place>): (r: seq<Entry>)
    ensures |r| == |ps|
    ensures forall i :: 0 <= i < |ps| ==> r[i] == Entry(ps[i], None)
  {
    if ps == [] then [] else Bare(ps[..|ps| - 1]) + [Entry(ps[|ps| - 1], None)]
  }

  /** `review_fetch_node`, given what the batch fetch returned. */
  function ReviewFetchPatch(s: State, results: seq<Batch>): (r: Patch)
    ensures s.restaurants.GetOr([]) == [] <==> r.next == End
    ensures r.next == End ==> r.message == Some(NothingToFetchMessage)
    ensures r.next != End && results == [] ==>
              r.next == Goto(RankingNode) && r.analyzed == Some(Bare(s.restaurants.GetOr([])))
    ensures r.next != End && results != [] ==> r.next == Goto(AnalysisNode) && r.reviewBatches == Some(results)
  {
    var restaurants := s.restaurants.GetOr([]);
    if restaurants == [] then Go(End).(message := Some(NothingToFetchMessage))
    else if results == [] then Go(Goto(RankingNode)).(analyzed := Some(Bare(restaurants)))
    else Go(Goto(AnalysisNode)).(reviewBatches := Some(results))
  }

  /** `analysis_node`. */
  function AnalysisPatch(s: State, w: World): (r: Patch)
    ensures r.next == Goto(RankingNode) && r.analyzed.Some?
    ensures s.reviewBatches.GetOr([]) == [] ==> r.analyzed == Some(s.analyzed.GetOr([]))
    ensures s.reviewBatches.GetOr([]) != [] ==> |r.analyzed.value| == |s.reviewBatches.value|
  {
    var batches := s.reviewBatches.GetOr([]);
    if batches == [] then Go(Goto(RankingNode)).(analyzed := Some(s.analyzed.GetOr([])))
    else Go(Goto(RankingNode)).(analyzed := Some(Analyzed(batches, WeakOf(s), w.models)))
  }

  /** `ranking_node`. */
  function RankingPatch(s: State): (r: Patch)
    ensures r.next == Goto(ResponseNode) && r.ranked.Some? && r.recommendations.Some?
    ensures |r.ranked.value| == |s.analyzed.GetOr([])|
    ensures |r.recommendations.value| == Min(TopCount, |s.analyzed.GetOr([])|)
    ensures r.recommendations.value == r.ranked.value[..|r.recommendations.value|]
  {
    RecommendationsAreTheBest(s.analyzed.GetOr([]), WeakOf(s));
    var r := RankingOf(s.analyzed.GetOr([]), WeakOf(s));
    Go(Goto(ResponseNode)).(ranked := Some(r.ranked), recommendations := Some(r.recommendations))
  }

  /** `response_node`. */
  function ResponsePatch(s: State): (r: Patch)
    ensures r.next == End
    ensures s.recommendations.GetOr([]) == [] ==> r.message == Some(NoRecommendationMessage) && r.recommendations.None?
    ensures s.recommendations.GetOr([]) != [] ==> r.message.None? && r.recommendations == s.recommendations
  {
    var recs := s.recommendations.GetOr([]);
    if recs == [] then Go(End).(message := Some(NoRecommendationMessage))
    else Go(End).(recommendations := Some(recs))
  }

  /** Only the two questions wait for an answer: `ask_preference_node`
      raises the preference flag, `final_confirm_node` the confirmation
      flag, and no other node raises either. */
  lemma OnlyQuestionsWait(n: Node, s: State, w: World, snap: Snapshot, now: int)
    requires PatchOf(n, s, w, snap, now).Some?
    ensures PatchOf(n, s, w, snap, now).value.waitingForPreference == Some(true) <==> n == AskPreferenceNode
    ensures PatchOf(n, s, w, snap, now).value.waitingForConfirmation == Some(true) <==> n == FinalConfirmNode
  {
    match n {
      case ParseInputNode =>
      case ValidateLocationNode =>
      case ConfirmNode =>
      case AskPreferenceNode =>
      case PreferenceResponseNode =>
      case FinalConfirmNode =>
      case ConfirmResponseNode =>
      case PlaceSearchNode =>
      case ReviewFetchNode =>
      case AnalysisNode =>
      case RankingNode =>
      case ResponseNode =>
    }
  }

  // ------------------------------------------------------ one node, effects

  /** The batches `review_fetch_node` gets from the store `snap`. */
  function FetchedFor(s: State, w: World, snap: Snapshot, now: int): seq<Batch> {
    var restaurants := s.restaurants.GetOr([]);
    if restaurants == [] then [] else FetchAll(snap, restaurants, now, w.runs).batches
  }

  /** The patch of node `n`, or `None` when the node raises. */
  function PatchOf(n: Node, s: State, w: World, snap: Snapshot, now: int): (r: Option<Patch>)
    ensures r.None? ==> n == PlaceSearchNode && Found(s, w).None?
  {
    match n
    case ParseInputNode => Some(ParseInputPatch(s, w))
    case ValidateLocationNode => Some(ValidateLocationPatch(s, w))
    case ConfirmNode => Some(ConfirmPatch(s))
    case AskPreferenceNode => Some(AskPreferencePatch(s))
    case PreferenceResponseNode => Some(PreferenceResponsePatch(s, w))
    case FinalConfirmNode => Some(FinalConfirmPatch(s))
    case ConfirmResponseNode => Some(ConfirmResponsePatch(s))
    case PlaceSearchNode => if Found(s, w).None? then None else Some(PlaceSearchPatch(s, Found(s, w).value))
    case ReviewFetchNode => Some(ReviewFetchPatch(s, FetchedFor(s, w, snap, now)))
    case AnalysisNode => Some(AnalysisPatch(s, w))
    case RankingNode => Some(RankingPatch(s))
    case ResponseNode => Some(ResponsePatch(s))
  }

  /** The rows after upserting some restaurants in turn. */
  function UpsertedAll(rows: map<string, Row>, ps: seq<Place>, now: int): map<string, Row> {
    if ps == [] then rows
    else
      var before := UpsertedAll(rows, ps[..|ps| - 1], now);
      var p := ps[|ps| - 1];
      if Truthy(p.placeId) && p.name.Some? then before[p.placeId.value := RowOf(p, now)] else before
  }

  /** The store after node `n`. */
  function SnapshotAfter(n: Node, s: State, w: World, snap: Snapshot, now: int): Snapshot {
    match n
    case PlaceSearchNode =>
      if Found(s, w).Some? && Found(s, w).value != [] then
        Snapshot(UpsertedAll(snap.rows, Kept(s, Found(s, w).value), now), snap.reviews)
      else snap
    case ReviewFetchNode =>
      if s.restaurants.GetOr([]) != [] then FetchAll(snap, s.restaurants.value, now, w.runs).after else snap
    case _ => snap
  }

  /** The recommendation records node `n` adds to the log. */
  function RecordsAdded(n: Node, s: State, w: World): seq<Recommendation> {
    if n == RankingNode && s.analyzed.GetOr([]) != [] && !w.recordFails then
      var ranked := RankingOf(s.analyzed.value, WeakOf(s)).ranked;
      [Recommendation(s.userInput, s.location, s.category, Join(",", TopPlaceIds(ranked)), ranked)]
    else []
  }

  /** Upserts the restaurants `ps` in turn. */
  method UpsertAll(db: Db, ps: seq<Place>, now: int)
    requires db.Valid()
    modifies db
    ensures db.Valid()
    ensures db.rows == UpsertedAll(old(db.rows), ps, now)
    ensures db.reviews == old(db.reviews) && db.records == old(db.records)
  {
    for i := 0 to |ps|
      invariant db.Valid()
      invariant db.rows == UpsertedAll(old(db.rows), ps[..i], now)
      invariant db.reviews == old(db.reviews) && db.records == old(db.records)
    {
      assert ps[..i + 1][..i] == ps[..i];
      var written := db.UpsertRestaurantFromDict(ps[i], now);
    }
    assert ps[..|ps|] == ps;
  }

  /** `place_search_node`: every restaurant kept is upserted in turn. */
  method PlaceSearchStep(db: Db, s: State, w: World, now: int) returns (p: Option<Patch>)
    requires db.Valid()
    modifies db
    ensures db.Valid()
    ensures Found(s, w).None? ==> p.None? && SnapshotOf(db) == old(SnapshotOf(db))
    ensures Found(s, w).Some? ==> p == Some(PlaceSearchPatch(s, Found(s, w).value))
    ensures Found(s, w) == Some([]) ==> SnapshotOf(db) == old(SnapshotOf(db))
    ensures Found(s, w).Some? && Found(s, w).value != [] ==>
              SnapshotOf(db) == Snapshot(UpsertedAll(old(db.rows), Kept(s, Found(s, w).value), now), old(db.reviews))
    ensures db.records == old(db.records)
  {
    var found := Found(s, w);
    if found.None? {
      return None;
    }
    if found.value != [] {
      var kept := FilterByStrong(found.value, StrongOf(s));
      if kept == [] {
        kept := found.value;
      }
      UpsertAll(db, kept, now);
    }
    p := Some(PlaceSearchPatch(s, found.value));
  }

  /** `review_fetch_node`: the reviews are fetched in one batch. */
  method ReviewFetchStep(db: Db, s: State, w: World, now: int) returns (p: Option<Patch>)
    requires db.Valid()
    modifies db
    ensures db.Valid()
    ensures p == PatchOf(ReviewFetchNode, s, w, old(SnapshotOf(db)), now)
    ensures SnapshotOf(db) == SnapshotAfter(ReviewFetchNode, s, w, old(SnapshotOf(db)), now)
    ensures db.records == old(db.records)
  {
    var restaurants := s.restaurants.GetOr([]);
    var results: seq<Batch> := [];
    if restaurants != [] {
      results := FetchReviewsBatch(db, restaurants, now, w.runs);
    }
    p := Some(ReviewFetchPatch(s, results));
  }

  /** `analysis_node`. */
  method AnalysisStep(s: State, w: World) returns (p: Patch)
    ensures p == AnalysisPatch(s, w)
  {
    var batches := s.reviewBatches.GetOr([]);
    if batches == [] {
      p := AnalysisPatch(s, w);
    } else {
      var analyzed := AnalyzeResults(batches, WeakOf(s), w.models);
      p := Go(Goto(RankingNode)).(analyzed := Some(analyzed));
    }
  }

  /** `ranking_node`: a non-empty ranking is logged. */
  method RankingStep(db: Db, s: State, w: World) returns (p: Patch)
    requires db.Valid()
    modifies db
    ensures db.Valid()
    ensures p == RankingPatch(s)
    ensures db.rows == old(db.rows) && db.reviews == old(db.reviews)
    ensures db.records == old(db.records) + RecordsAdded(RankingNode, s, w)
  {
    var analyzed := s.analyzed.GetOr([]);
    if analyzed != [] {
      var r := RankingOf(analyzed, WeakOf(s));
      db.InsertRecommendationRecord(s.userInput, s.location, s.category, r.ranked, w.recordFails);
    }
    p := RankingPatch(s);
  }

  /** Runs node `n`: its patch and its writes to the store. */
  method Step(db: Db, n: Node, s: State, w: World, now: int) returns (p: Option<Patch>)
    requires db.Valid()
    modifies db
    ensures db.Valid()
    ensures p == PatchOf(n, s, w, old(SnapshotOf(db)), now)
    ensures SnapshotOf(db) == SnapshotAfter(n, s, w, old(SnapshotOf(db)), now)
    ensures db.records == old(db.records) + RecordsAdded(n, s, w)
  {
    match n
    case PlaceSearchNode =>
      p := PlaceSearchStep(db, s, w, now);
    case ReviewFetchNode =>
      p := ReviewFetchStep(db, s, w, now);
    case AnalysisNode =>
      var patch := AnalysisStep(s, w);
      p := Some(patch);
    case RankingNode =>
      var patch := RankingStep(db, s, w);
      p := Some(patch);
    case _ =>
      p := PatchOf(n, s, w, SnapshotOf(db), now);
  }

  // ------------------------------------------------------------- the turn

  /** Facts about the state a node is entered with: the response nodes are
      only entered while their flag is set, and the path to the preference
      question, and the one to the final confirmation, run with the other
      flag clear. */
  predicate Entered(n: Node, s: State) {
    && (n == ConfirmResponseNode ==> s.waitingForConfirmation)
    && (n == PreferenceResponseNode ==> s.waitingForPreference)
    && (n == ValidateLocationNode || n == ConfirmNode || n == AskPreferenceNode ==> !s.waitingForConfirmation)
    && (n == FinalConfirmNode ==> !s.waitingForPreference)
  }

  /** The dialogue never waits for both answers at once. */
  predicate AtMostOneWaiting(s: State) {
    !(s.waitingForConfirmation && s.waitingForPreference)
  }

  function Flags(s: State): nat {
    (if s.waitingForConfirmation then 1 else 0) + (if s.waitingForPreference then 1 else 0)
  }

  /** The nodes' positions along the graph, from the parser down. */
  function Depth(n: Node): nat {
    match n
    case ParseInputNode => 12
    case ConfirmResponseNode => 11
    case PreferenceResponseNode => 11
    case ValidateLocationNode => 11
    case FinalConfirmNode => 10
    case ConfirmNode => 10
    case AskPreferenceNode => 9
    case PlaceSearchNode => 8
    case ReviewFetchNode => 7
    case AnalysisNode => 6
    case RankingNode => 5
    case ResponseNode => 4
  }

  /** What is left of a turn: each node either ends it, moves down the
      graph, or (only the confirmation answer, back to the parser) clears a
      waiting flag. */
  function Measure(r: Route, s: State): nat {
    if r.Run? then 1 + 13 * Flags(s) + Depth(r.node) else 0
  }

  /** The route a successor stands for. */
  function RouteOf(nx: Next): Route {
    if nx.End? then Finish else Run(nx.node)
  }

  /** A dialogue node's name reads back as that node, and is neither "end"
      nor empty. */
  lemma DialogueNameReadsBack(n: Node)
    requires Depth(n) >= 10
    ensures NodeNamed(NodeName(n)) == Some(n)
    ensures NodeName(n) != "end" && NodeName(n) != ""
  {
    match n {
      case ParseInputNode =>
      case ValidateLocationNode =>
      case ConfirmNode =>
      case PreferenceResponseNode =>
      case FinalConfirmNode =>
      case ConfirmResponseNode =>
    }
  }

  /** So does the name of a node from the preference question down. */
  lemma SearchNameReadsBack(n: Node)
    requires Depth(n) < 10
    ensures NodeNamed(NodeName(n)) == Some(n)
    ensures NodeName(n) != "end" && NodeName(n) != ""
  {
    match n {
      case AskPreferenceNode =>
      case PlaceSearchNode =>
      case ReviewFetchNode =>
      case AnalysisNode =>
      case RankingNode =>
      case ResponseNode =>
    }
  }

  /** Every name a node writes routes back to that node. */
  lemma NamesRouteBack(nx: Next)
    ensures RouteNext(Some(NextName(nx))) == RouteOf(nx)
  {
    if nx.Goto? && Depth(nx.node) >= 10 {
      DialogueNameReadsBack(nx.node);
    } else if nx.Goto? {
      SearchNameReadsBack(nx.node);
    }
  }

  /** Merging `p` into `s` after node `n` keeps the entry facts for the
      successor, shortens what is left of the turn, and keeps at most one
      flag set. */
  predicate Progress(n: Node, s: State, p: Patch) {
    var t := Merge(s, p);
    && (p.next.Goto? ==> Entered(p.next.node, t) && Measure(Run(p.next.node), t) < Measure(Run(n), s))
    && (AtMostOneWaiting(s) ==> AtMostOneWaiting(t))
  }

  /** A patch that leaves both flags alone and moves down the graph. */
  lemma Descends(n: Node, s: State, p: Patch)
    requires p.waitingForConfirmation.None? && p.waitingForPreference.None?
    requires p.next.Goto? ==> Depth(p.next.node) < Depth(n) && Entered(p.next.node, Merge(s, p))
    ensures Progress(n, s, p)
  {
  }

  lemma ParseInputProgress(s: State, w: World)
    ensures Progress(ParseInputNode, s, ParseInputPatch(s, w))
  {
    var p := ParseInputPatch(s, w);
    if p.next.Goto? {
      assert Merge(s, p).waitingForConfirmation == s.waitingForConfirmation;
      assert Merge(s, p).waitingForPreference == s.waitingForPreference;
    }
    Descends(ParseInputNode, s, p);
  }

  /** The preference answer clears its flag and moves on to the final
      confirmation. */
  lemma PreferenceResponseProgress(s: State, p: Patch)
    requires s.waitingForPreference
    requires p.next == Goto(FinalConfirmNode)
    requires p.waitingForPreference == Some(false) && p.waitingForConfirmation.None?
    ensures Progress(PreferenceResponseNode, s, p)
  {
  }

  /** The confirmation answer clears its flag and searches, ends, or reads
      the input again. */
  lemma ConfirmResponseProgress(s: State, p: Patch)
    requires s.waitingForConfirmation
    requires p.next == End || p.next == Goto(PlaceSearchNode) || p.next == Goto(ParseInputNode)
    requires p.waitingForConfirmation == Some(false) && p.waitingForPreference.None?
    ensures Progress(ConfirmResponseNode, s, p)
  {
  }

  lemma ValidateLocationProgress(s: State, w: World)
    requires !s.waitingForConfirmation
    ensures Progress(ValidateLocationNode, s, ValidateLocationPatch(s, w))
  {
    Descends(ValidateLocationNode, s, ValidateLocationPatch(s, w));
  }

  lemma ConfirmProgress(s: State)
    requires !s.waitingForConfirmation
    ensures Progress(ConfirmNode, s, ConfirmPatch(s))
  {
  }

  /** Asking for the preferences sets its flag with the other one clear. */
  lemma AskPreferenceProgress(s: State)
    requires !s.waitingForConfirmation
    ensures Progress(AskPreferenceNode, s, AskPreferencePatch(s))
  {
  }

  /** Asking for the final confirmation sets its flag with the other one
      clear. */
  lemma FinalConfirmProgress(s: State)
    requires !s.waitingForPreference
    ensures Progress(FinalConfirmNode, s, FinalConfirmPatch(s))
  {
  }

  lemma PlaceSearchProgress(s: State, found: seq<Place>)
    ensures Progress(PlaceSearchNode, s, PlaceSearchPatch(s, found))
  {
    Descends(PlaceSearchNode, s, PlaceSearchPatch(s, found));
  }

  lemma ReviewFetchProgress(s: State, results: seq<Batch>)
    ensures Progress(ReviewFetchNode, s, ReviewFetchPatch(s, results))
  {
    Descends(ReviewFetchNode, s, ReviewFetchPatch(s, results));
  }

  lemma AnalysisProgress(s: State, w: World)
    ensures Progress(AnalysisNode, s, AnalysisPatch(s, w))
  {
    Descends(AnalysisNode, s, AnalysisPatch(s, w));
  }

  /** The nodes of the conversation make progress. */
  lemma DialogueProgress(n: Node, s: State, w: World, snap: Snapshot, now: int)
    requires Depth(n) >= 9
    requires Entered(n, s)
    ensures PatchOf(n, s, w, snap, now).Some?
    ensures Progress(n, s, PatchOf(n, s, w, snap, now).value)
  {
    match n {
      case ParseInputNode => ParseInputProgress(s, w);
      case ValidateLocationNode => ValidateLocationProgress(s, w);
      case ConfirmNode => ConfirmProgress(s);
      case AskPreferenceNode => AskPreferenceProgress(s);
      case PreferenceResponseNode => PreferenceResponseProgress(s, PreferenceResponsePatch(s, w));
      case FinalConfirmNode => FinalConfirmProgress(s);
      case ConfirmResponseNode => ConfirmResponseProgress(s, ConfirmResponsePatch(s));
    }
  }

  /** The nodes of the search make progress when they do not raise. */
  lemma PipelineProgress(n: Node, s: State, w: World, snap: Snapshot, now: int)
    requires Depth(n) < 9
    requires PatchOf(n, s, w, snap, now).Some?
    ensures Progress(n, s, PatchOf(n, s, w, snap, now).value)
  {
    match n {
      case PlaceSearchNode => PlaceSearchProgress(s, Found(s, w).value);
      case ReviewFetchNode => ReviewFetchProgress(s, FetchedFor(s, w, snap, now));
      case AnalysisNode => AnalysisProgress(s, w);
      case RankingNode => RankingProgress(s);
      case ResponseNode => ResponseProgress(s);
    }
  }

  lemma RankingProgress(s: State)
    ensures Progress(RankingNode, s, RankingPatch(s))
  {
  }

  lemma ResponseProgress(s: State)
    ensures Progress(ResponseNode, s, ResponsePatch(s))
  {
  }

  /** Every node that does not raise makes progress. */
  lemma StepProgress(n: Node, s: State, w: World, snap: Snapshot, now: int)
    requires Entered(n, s)
    requires PatchOf(n, s, w, snap, now).Some?
    ensures Progress(n, s, PatchOf(n, s, w, snap, now).value)
  {
    if Depth(n) >= 9 {
      DialogueProgress(n, s, w, snap, now);
    } else {
      PipelineProgress(n, s, w, snap, now);
    }
  }

  /** The outcome of a turn: it ran to "end", or a node raised. */
  datatype Outcome = Completed | Aborted

  /** What a turn leaves: the state, how it ended, the store's rows and
      reviews, and the recommendation records it added. */
  datatype TurnResult = TurnResult(state: State, outcome: Outcome, store: Snapshot, added: seq<Recommendation>)

  /** The rest of a turn from `route` on, against the store `snap`. */
  function Continue(route: Route, s: State, w: World, snap: Snapshot, now: int): (r: TurnResult)
    requires route.Run? ==> Entered(route.node, s)
    ensures r.outcome == Completed ==> r.state.userInput.None?
    ensures r.outcome == Aborted ==> r.state.userInput == s.userInput
    ensures route.Run? && r.outcome == Completed ==> r.state.next == Some("end")
    ensures AtMostOneWaiting(s) ==> AtMostOneWaiting(r.state)
    decreases Measure(route, s)
  {
    if !route.Run? then TurnResult(s.(userInput := None), Completed, snap, [])
    else
      match PatchOf(route.node, s, w, snap, now)
      case None => TurnResult(s, Aborted, snap, [])
      case Some(p) =>
        StepProgress(route.node, s, w, snap, now);
        var t := Merge(s, p);
        var rest := Continue(RouteOf(p.next), t, w, SnapshotAfter(route.node, s, w, snap, now), now);
        rest.(added := RecordsAdded(route.node, s, w) + rest.added)
  }

  /** `whole` is what the turn yields once `added` has been logged and the
      rest runs from `route` and `s` against the store `snap`. */
  predicate Tracks(whole: TurnResult, route: Route, s: State, w: World, snap: Snapshot, now: int,
                   added: seq<Recommendation>)
  {
    && (route.Run? ==> Entered(route.node, s))
    && var rest := Continue(route, s, w, snap, now);
       whole == rest.(added := added + rest.added)
  }

  /** A node that raises ends the turn where it is. */
  lemma TracksAbort(whole: TurnResult, n: Node, s: State, w: World, snap: Snapshot, now: int,
                    added: seq<Recommendation>)
    requires Tracks(whole, Run(n), s, w, snap, now, added)
    requires PatchOf(n, s, w, snap, now).None?
    ensures whole == TurnResult(s, Aborted, snap, added)
  {
  }

  /** A node that raises has written nothing. */
  lemma RaisesQuietly(n: Node, s: State, w: World, snap: Snapshot, now: int)
    requires PatchOf(n, s, w, snap, now).None?
    ensures SnapshotAfter(n, s, w, snap, now) == snap && RecordsAdded(n, s, w) == []
  {
  }

  /** Any other node's patch is merged and the turn goes on from there, with
      less of it left. */
  lemma TracksStep(whole: TurnResult, n: Node, s: State, w: World, snap: Snapshot, now: int,
                   added: seq<Recommendation>)
    requires Tracks(whole, Run(n), s, w, snap, now, added)
    requires PatchOf(n, s, w, snap, now).Some?
    ensures var p := PatchOf(n, s, w, snap, now).value;
            var t := Merge(s, p);
            && Tracks(whole, RouteOf(p.next), t, w, SnapshotAfter(n, s, w, snap, now), now,
                      added + RecordsAdded(n, s, w))
            && Measure(RouteOf(p.next), t) < Measure(Run(n), s)
  {
    StepProgress(n, s, w, snap, now);
    var p := PatchOf(n, s, w, snap, now).value;
    var rest := Continue(RouteOf(p.next), Merge(s, p), w, SnapshotAfter(n, s, w, snap, now), now);
    ConcatAssoc(added, RecordsAdded(n, s, w), rest.added);
  }

  /** The nodes other than the search, the fetch and the ranking neither
      write the store nor log a record. */
  lemma Quiet(n: Node, s: State, w: World, snap: Snapshot, now: int)
    requires n != PlaceSearchNode && n != ReviewFetchNode && n != RankingNode
    ensures SnapshotAfter(n, s, w, snap, now) == snap && RecordsAdded(n, s, w) == []
  {
  }

  /** Such a node's patch `p` is merged and the turn goes on from there,
      at `route`. */
  lemma TracksQuietStep(whole: TurnResult, n: Node, s: State, w: World, snap: Snapshot, now: int,
                        added: seq<Recommendation>, p: Patch, route: Route)
    requires Tracks(whole, Run(n), s, w, snap, now, added)
    requires PatchOf(n, s, w, snap, now) == Some(p)
    requires n != PlaceSearchNode && n != ReviewFetchNode && n != RankingNode
    requires route == RouteOf(p.next)
    ensures Tracks(whole, route, Merge(s, p), w, snap, now, added)
  {
    TracksStep(whole, n, s, w, snap, now, added);
    Quiet(n, s, w, snap, now);
    assert added + [] == added;
  }

  /** At the end the turn has been run in full. */
  lemma TracksFinish(whole: TurnResult, s: State, w: World, snap: Snapshot, now: int,
                     added: seq<Recommendation>)
    requires Tracks(whole, Finish, s, w, snap, now, added)
    ensures whole == TurnResult(s.(userInput := None), Completed, snap, added)
  {
  }

  /** A whole turn: the text is stored and the graph entered at the parser. */
  function Turn(s0: State, input: string, w: World, snap: Snapshot, now: int): TurnResult {
    Continue(Run(ParseInputNode), s0.(userInput := Some(input)), w, snap, now)
  }

  /** A turn starts at the parser with nothing logged. */
  lemma TurnTracks(s0: State, input: string, w: World, snap: Snapshot, now: int)
    ensures Tracks(Turn(s0, input, w, snap, now), Run(ParseInputNode), s0.(userInput := Some(input)), w, snap, now, [])
  {
    var r := Turn(s0, input, w, snap, now);
    assert [] + r.added == r.added;
    assert r == r.(added := [] + r.added);
  }

  /** One pass of the driver's loop: node `n` runs, its patch is merged and
      the next node is looked up by the name the state now holds. */
  method Advance(db: Db, n: Node, s: State, w: World, now: int,
                 ghost whole: TurnResult, ghost added: seq<Recommendation>)
      returns (raised: bool, t: State, route: Route, ghost logged: seq<Recommendation>)
    requires db.Valid()
    requires Tracks(whole, Run(n), s, w, SnapshotOf(db), now, added)
    modifies db
    ensures db.Valid()
    ensures db.records == old(db.records) + logged
    ensures raised ==> whole == TurnResult(s, Aborted, SnapshotOf(db), added + logged)
    ensures !raised ==> Tracks(whole, route, t, w, SnapshotOf(db), now, added + logged)
                        && Measure(route, t) < Measure(Run(n), s)
  {
    ghost var snap := SnapshotOf(db);
    var p := Step(db, n, s, w, now);
    if p.None? {
      TracksAbort(whole, n, s, w, snap, now, added);
      RaisesQuietly(n, s, w, snap, now);
      assert added + [] == added;
      return true, s, Finish, [];
    }
    TracksStep(whole, n, s, w, snap, now, added);
    NamesRouteBack(p.value.next);
    raised, t := false, Merge(s, p.value);
    route := RouteNext(t.next);
    logged := RecordsAdded(n, s, w);
  }

  /** One turn of the WebSocket driver: store the text, run from the parser
      until a node names "end", then clear the input. A node that raises
      aborts the turn, leaving the state as the nodes before it left it. */
  method RunTurn(db: Db, s0: State, input: string, w: World, now: int) returns (s: State, outcome: Outcome)
    requires db.Valid()
    modifies db
    ensures db.Valid()
    ensures var r := Turn(s0, input, w, old(SnapshotOf(db)), now);
            && s == r.state && outcome == r.outcome
            && SnapshotOf(db) == r.store && db.records == old(db.records) + r.added
    ensures outcome == Completed ==> s.next == Some("end") && s.userInput.None?
    ensures outcome == Aborted ==> s.userInput == Some(input)
    ensures AtMostOneWaiting(s0) ==> AtMostOneWaiting(s)
  {
    ghost var whole := Turn(s0, input, w, SnapshotOf(db), now);
    ghost var added: seq<Recommendation> := [];
    s := s0.(userInput := Some(input));
    TurnTracks(s0, input, w, SnapshotOf(db), now);
    assert AtMostOneWaiting(s0) ==> AtMostOneWaiting(whole.state);
    var route := Run(ParseInputNode);
    while route.Run?
      invariant db.Valid()
      invariant db.records == old(db.records) + added
      invariant Tracks(whole, route, s, w, SnapshotOf(db), now, added)
      decreases Measure(route, s)
    {
      var raised: bool;
      var t: State;
      var next: Route;
      ghost var logged: seq<Recommendation>;
      raised, t, next, logged := Advance(db, route.node, s, w, now, whole, added);
      ConcatAssoc(old(db.records), added, logged);
      added := added + logged;
      if raised {
        assert AtMostOneWaiting(s0) ==> AtMostOneWaiting(s0.(userInput := Some(input)));
        return s, Aborted;
      }
      s, route := t, next;
    }
    TracksFinish(whole, s, w, SnapshotOf(db), now, added);
    assert AtMostOneWaiting(s0) ==> AtMostOneWaiting(s0.(userInput := Some(input)));
    s := s.(userInput := None);
    outcome := Completed;
  }

  // ----------------------------------------------------------- properties

  /** Merging a patch a second time changes nothing. */
  lemma MergeIsIdempotent(s: State, p: Patch)
    ensures Merge(Merge(s, p), p) == Merge(s, p)
  {
  }

  /** A patch holding only the successor and a message changes only those
      two slots. */
  lemma MergeMessage(s: State, next: Next, message: string)
    ensures Merge(s, Go(next).(message := Some(message)))
            == s.(next := Some(NextName(next)), message := Some(message))
  {
  }

  /** The restaurants kept by the place search all pass every constraint,
      unless none of those found passes: then all of them are kept. */
  lemma KeptPassOrAll(s: State, found: seq<Place>)
    ensures (forall r :: r in Kept(s, found) ==> Passes(r, StrongOf(s)))
            || (Kept(s, found) == found && forall r :: r in found ==> !Passes(r, StrongOf(s)))
    ensures forall r :: r in Kept(s, found) ==> r in found
  {
    PassingExactly(found, StrongOf(s));
  }

  /** The parser, given a message the language model marks as unrelated to
      food, ends the turn with the refusal. */
  lemma NonFoodEnds(whole: TurnResult, s: State, w: World, snap: Snapshot, now: int)
    requires Tracks(whole, Run(ParseInputNode), s, w, snap, now, [])
    requires !s.waitingForConfirmation && !s.waitingForPreference
    requires DetectNonFoodIntent(w.intent(Strip(s.userInput.GetOr(""))))
    ensures whole == TurnResult(s.(userInput := None, next := Some("end"), message := Some(NonFoodMessage)),
                                Completed, snap, [])
  {
    var p := Go(End).(message := Some(NonFoodMessage));
    assert PatchOf(ParseInputNode, s, w, snap, now) == Some(p);
    TracksQuietStep(whole, ParseInputNode, s, w, snap, now, [], p, Finish);
    MergeMessage(s, End, NonFoodMessage);
    TracksFinish(whole, Merge(s, p), w, snap, now, []);
  }

  /** A message the language model marks as unrelated to food ends the turn
      with the refusal, changing no slot and storing nothing. */
  lemma NonFoodTurn(s0: State, input: string, w: World, snap: Snapshot, now: int)
    requires !s0.waitingForConfirmation && !s0.waitingForPreference
    requires DetectNonFoodIntent(w.intent(Strip(input)))
    ensures var r := Turn(s0, input, w, snap, now);
            && r.outcome == Completed && r.store == snap && r.added == []
            && r.state == s0.(userInput := None, next := Some("end"), message := Some(NonFoodMessage))
  {
    TurnTracks(s0, input, w, snap, now);
    NonFoodEnds(Turn(s0, input, w, snap, now), s0.(userInput := Some(input)), w, snap, now);
  }

  /** A refusal at the confirmation node cancels the search: location and
      category are cleared, the flag is lowered and nothing is stored. */
  lemma RefusalCancels(whole: TurnResult, s: State, w: World, snap: Snapshot, now: int)
    requires Tracks(whole, Run(ConfirmResponseNode), s, w, snap, now, [])
    requires Lower(Strip(s.userInput.GetOr(""))) !in YesWords && Lower(Strip(s.userInput.GetOr(""))) in NoWords
    ensures && whole.outcome == Completed && whole.store == snap && whole.added == []
            && whole.state.location.None? && whole.state.category.None?
            && !whole.state.waitingForConfirmation && whole.state.message == Some(CancelledMessage)
  {
    var p := ConfirmResponsePatch(s);
    assert p.next == End && p.location == Some(None) && p.category == Some(None);
    TracksQuietStep(whole, ConfirmResponseNode, s, w, snap, now, [], p, Finish);
    TracksFinish(whole, Merge(s, p), w, snap, now, []);
  }

  /** While the final confirmation waits, the parser hands the answer to the
      confirmation node. */
  lemma AnswerGoesToConfirmResponse(whole: TurnResult, s: State, w: World, snap: Snapshot, now: int)
    requires Tracks(whole, Run(ParseInputNode), s, w, snap, now, [])
    requires s.waitingForConfirmation
    ensures Tracks(whole, Run(ConfirmResponseNode), Merge(s, Go(Goto(ConfirmResponseNode))), w, snap, now, [])
  {
    var p := Go(Goto(ConfirmResponseNode));
    assert PatchOf(ParseInputNode, s, w, snap, now) == Some(p);
    TracksQuietStep(whole, ParseInputNode, s, w, snap, now, [], p, Run(ConfirmResponseNode));
  }

  /** Answering the final confirmation with a refusal cancels the search:
      location and category are cleared, the flag is lowered and nothing is
      stored. */
  lemma CancelTurn(s0: State, input: string, w: World, snap: Snapshot, now: int)
    requires s0.waitingForConfirmation
    requires Lower(Strip(input)) !in YesWords && Lower(Strip(input)) in NoWords
    ensures var r := Turn(s0, input, w, snap, now);
            && r.outcome == Completed && r.store == snap && r.added == []
            && r.state.location.None? && r.state.category.None?
            && !r.state.waitingForConfirmation && r.state.message == Some(CancelledMessage)
  {
    var whole := Turn(s0, input, w, snap, now);
    var s := s0.(userInput := Some(input));
    TurnTracks(s0, input, w, snap, now);
    AnswerGoesToConfirmResponse(whole, s, w, snap, now);
    RefusalCancels(whole, Merge(s, Go(Goto(ConfirmResponseNode))), w, snap, now);
  }

  /** The parser, given a request naming both a location and a category,
      writes them and moves on to the validation. */
  lemma FullRequestValidates(whole: TurnResult, s: State, w: World, snap: Snapshot, now: int, req: Request)
    requires Tracks(whole, Run(ParseInputNode), s, w, snap, now, [])
    requires !s.waitingForConfirmation && !s.waitingForPreference
    requires !DetectNonFoodIntent(w.intent(Strip(s.userInput.GetOr(""))))
    requires ParseUserInput(w.reply(Strip(s.userInput.GetOr(""))), w.decode) == Some(req)
    requires Truthy(req.location) && Truthy(req.category)
    ensures var t := Merge(s, RequestPatch(s, req));
            && Tracks(whole, Run(ValidateLocationNode), t, w, snap, now, [])
            && t.location == req.location && t.category == req.category
            && t.preferences == Some(Classified(req.preferences))
            && !t.waitingForConfirmation && !t.waitingForPreference
  {
    var p := RequestPatch(s, req);
    assert PatchOf(ParseInputNode, s, w, snap, now) == Some(p);
    TracksQuietStep(whole, ParseInputNode, s, w, snap, now, [], p, Run(ValidateLocationNode));
  }

  /** The preference question ends the turn waiting for the answer. */
  lemma AskPreferenceEnds(whole: TurnResult, s: State, w: World, snap: Snapshot, now: int)
    requires Tracks(whole, Run(AskPreferenceNode), s, w, snap, now, [])
    ensures && whole.outcome == Completed && whole.store == snap && whole.added == []
            && whole.state.location == s.location && whole.state.category == s.category
            && whole.state.preferences == s.preferences
            && whole.state.waitingForPreference && whole.state.waitingForConfirmation == s.waitingForConfirmation
            && whole.state.message == Some(AskPreferenceMessage(PyStr(s.location), PyStr(s.category)))
  {
    var p := AskPreferencePatch(s);
    TracksQuietStep(whole, AskPreferenceNode, s, w, snap, now, [], p, Finish);
    TracksFinish(whole, Merge(s, p), w, snap, now, []);
  }

  /** From the confirmation node the turn asks for the preferences and ends
      waiting for them. */
  lemma ConfirmAsksPreference(whole: TurnResult, s: State, w: World, snap: Snapshot, now: int)
    requires Tracks(whole, Run(ConfirmNode), s, w, snap, now, [])
    ensures && whole.outcome == Completed && whole.store == snap && whole.added == []
            && whole.state.location == s.location && whole.state.category == s.category
            && whole.state.preferences == s.preferences
            && whole.state.waitingForPreference && whole.state.waitingForConfirmation == s.waitingForConfirmation
            && whole.state.message == Some(AskPreferenceMessage(PyStr(s.location), PyStr(s.category)))
  {
    var p := Go(Goto(AskPreferenceNode));
    TracksQuietStep(whole, ConfirmNode, s, w, snap, now, [], p, Run(AskPreferenceNode));
    AskPreferenceEnds(whole, Merge(s, p), w, snap, now);
  }

  /** From the validation of a location that is not too large, the turn
      shows the search back and ends waiting for the preferences, with the
      slots as they were and nothing stored. */
  lemma ValidatedAsksPreference(whole: TurnResult, s: State, w: World, snap: Snapshot, now: int)
    requires Tracks(whole, Run(ValidateLocationNode), s, w, snap, now, [])
    requires s.location.Some? && s.category.Some? && !s.waitingForConfirmation
    requires !PlaceInfo.LocationIsTooLarge(s.location.value, w.geocode(s.location.value))
    ensures && whole.outcome == Completed && whole.store == snap && whole.added == []
            && whole.state.location == s.location && whole.state.category == s.category
            && whole.state.preferences == s.preferences
            && whole.state.waitingForPreference && !whole.state.waitingForConfirmation
            && whole.state.message == Some(AskPreferenceMessage(s.location.value, s.category.value))
  {
    var p := Go(Goto(ConfirmNode));
    assert PatchOf(ValidateLocationNode, s, w, snap, now) == Some(p);
    TracksQuietStep(whole, ValidateLocationNode, s, w, snap, now, [], p, Run(ConfirmNode));
    ConfirmAsksPreference(whole, Merge(s, p), w, snap, now);
  }

  /** A request naming both a location and a category, for an area that is
      not too large, is shown back and the turn ends waiting for the
      preferences, with nothing stored. */
  lemma FullRequestAsksPreference(s0: State, input: string, w: World, snap: Snapshot, now: int, req: Request)
    requires !s0.waitingForConfirmation && !s0.waitingForPreference
    requires !DetectNonFoodIntent(w.intent(Strip(input)))
    requires ParseUserInput(w.reply(Strip(input)), w.decode) == Some(req)
    requires Truthy(req.location) && Truthy(req.category)
    requires !PlaceInfo.LocationIsTooLarge(req.location.value, w.geocode(req.location.value))
    ensures var r := Turn(s0, input, w, snap, now);
            && r.outcome == Completed && r.store == snap && r.added == []
            && r.state.location == req.location && r.state.category == req.category
            && r.state.preferences == Some(Classified(req.preferences))
            && r.state.waitingForPreference && !r.state.waitingForConfirmation
            && r.state.message == Some(AskPreferenceMessage(req.location.value, req.category.value))
  {
    var whole := Turn(s0, input, w, snap, now);
    var s := s0.(userInput := Some(input));
    TurnTracks(s0, input, w, snap, now);
    FullRequestValidates(whole, s, w, snap, now, req);
    ValidatedAsksPreference(whole, Merge(s, RequestPatch(s, req)), w, snap, now);
  }

}
