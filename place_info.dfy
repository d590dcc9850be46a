/** The place tool of the recommender: the "location too large" decision
    over a geocode response, and the shaping of a nearby search into place
    records. Each HTTP exchange is an input: it timed out, failed, or gave
    the parsed response. */
module PlaceInfo {
  import opened Wrappers
  import opened Text
  import opened Records

  /** The largest latitude or longitude span, in degrees, of a location
      that is specific enough. */
  const MaxSpan: real := 0.2
  /** The prefix of every map link; the place_id follows it. */
  const MapUrlPrefix: string := "https://www.google.com/maps/place/?q=place_id:"
  /** The status of a successful Google response. */
  const StatusOk: string := "OK"

  /** The outcome of one HTTP request. */
  datatype Fetched<T> = TimedOut | Failed | Got(response: T)

  /** The two corners of a geocode viewport. */
  datatype Viewport = Viewport(neLat: real, neLng: real, swLat: real, swLng: real)

  /** One geocode result: its centre and, possibly, its viewport. */
  datatype GeoResult = GeoResult(lat: real, lng: real, viewport: Option<Viewport>)

  datatype GeoResponse = GeoResponse(status: string, results: seq<GeoResult>)

  /** One search result item, with the keys it may lack as `None`. */
  datatype Item = Item(
    name: Option<string>,
    placeId: Option<string>,
    rating: Option<real>,
    userRatingsTotal: Option<int>,
    vicinity: Option<string>,
    formattedAddress: Option<string>)

  datatype SearchResponse = SearchResponse(status: string, results: seq<Item>)

  /** The `result` of a Place Details response. */
  datatype Details = Details(
    formattedAddress: Option<string>,
    phone: Option<string>,
    website: Option<string>,
    priceLevel: Option<int>,
    weekdayText: Option<seq<string>>)

  function Abs(x: real): real {
    if x < 0.0 then -x else x
  }

  /** Whether a viewport spans more than `MaxSpan` in either direction. */
  predicate SpansTooFar(v: Viewport) {
    Abs(v.neLat - v.swLat) > MaxSpan || Abs(v.neLng - v.swLng) > MaxSpan
  }

  /** `location_is_too_large`: an empty location is too large; so is one
      the geocoder does not resolve; otherwise the first result's viewport
      decides, and a missing viewport, a timeout or an error count as not
      too large. */
  function LocationIsTooLarge(location: string, geocode: Fetched<GeoResponse>): (r: bool)
    ensures location == "" ==> r
    ensures location != "" && !geocode.Got? ==> !r
  {
    if location == "" then true
    else match geocode
      case TimedOut => false
      case Failed => false
      case Got(data) =>
        if data.status != StatusOk || data.results == [] then true
        else match data.results[0].viewport
          case Some(v) => SpansTooFar(v)
          case None => false
  }

  /** Python's `s[:n]`, negative `n` counting from the end. */
  function SliceTo<T>(s: seq<T>, n: int): (r: seq<T>)
    ensures |r| <= |s| && r == s[..|r|]
    ensures n >= 0 ==> |r| == if n < |s| then n else |s|
  {
    if n >= 0 then (if n < |s| then s[..n] else s)
    else if |s| + n > 0 then s[..|s| + n] else []
  }

  /** The place record built for a search item with place_id `pid` from the
      Place Details result `d`: a missing rating or review count is 0, and
      the address is the one of the details, else the item's vicinity, else
      the empty string. */
  function ShapeEntry(item: Item, pid: string, d: Details): (p: Place)
    ensures p.name == item.name && p.placeId == Some(pid) && p.mapUrl == Some(MapUrlPrefix + pid)
    ensures p.rating == Some(item.rating.GetOr(0.0)) && p.userRatingsTotal == Some(item.userRatingsTotal.GetOr(0))
    ensures d.formattedAddress.Some? ==> p.address == d.formattedAddress
    ensures d.formattedAddress.None? ==> p.address == Some(item.vicinity.GetOr(""))
    ensures p.phone == d.phone && p.website == d.website && p.priceLevel == d.priceLevel
    ensures p.openingHours == d.weekdayText
  {
    Place(
      item.name,
      Some(pid),
      Some(item.rating.GetOr(0.0)),
      Some(item.userRatingsTotal.GetOr(0)),
      Some(if d.formattedAddress.Some? then d.formattedAddress.value else item.vicinity.GetOr("")),
      Some(MapUrlPrefix + pid),
      d.phone,
      d.website,
      d.priceLevel,
      d.weekdayText)
  }

  /** The details response the loop holds after some items, as its
      `details_res` variable does: the latest details request, among the
      items with a place_id, that did not raise; `None` while none has
      answered. A request that raises leaves the previous response in place. */
  function LastAnswer(items: seq<Item>, details: string -> Option<Details>): Option<Details> {
    if items == [] then None
    else
      var last := items[|items| - 1];
      if Truthy(last.placeId) && details(last.placeId.value).Some? then details(last.placeId.value)
      else LastAnswer(items[..|items| - 1], details)
  }

  /** The records for the items, skipping those without a place_id. Each
      record is built from the response `details_res` holds at that point;
      `None` when that variable is still unbound, where the source raises. */
  function Shaped(items: seq<Item>, details: string -> Option<Details>): (r: Option<seq<Place>>)
    ensures r.Some? ==> |r.value| <= |items|
  {
    if items == [] then Some([])
    else
      var init := Shaped(items[..|items| - 1], details);
      var last := items[|items| - 1];
      if init.None? || !Truthy(last.placeId) then init
      else match LastAnswer(items, details)
        case None => None
        case Some(d) => Some(init.value + [ShapeEntry(last, last.placeId.value, d)])
  }

  /** What `search_restaurants` yields: nothing when a request fails or a
      status is not OK; `None` where the source raises: when the geocoder
      answers OK without a result, and when the first details request
      raises. */
  function SearchResult(geocode: Fetched<GeoResponse>, nearby: Fetched<SearchResponse>,
                        details: string -> Option<Details>, maxResults: int): (r: Option<seq<Place>>)
    ensures !geocode.Got? || geocode.response.status != StatusOk ==> r == Some([])
    ensures r.None? ==> (geocode.Got? && geocode.response.results == [])
                        || (nearby.Got? && nearby.response.status == StatusOk)
  {
    match geocode
    case TimedOut => Some([])
    case Failed => Some([])
    case Got(geo) =>
      if geo.status != StatusOk then Some([])
      else if geo.results == [] then None
      else match nearby
        case TimedOut => Some([])
        case Failed => Some([])
        case Got(res) =>
          if res.status != StatusOk then Some([])
          else Shaped(SliceTo(res.results, maxResults), details)
  }

  /** `search_restaurants`: the nearby search around the geocoded centre
      (whose request is `nearby`), then one details request per kept item. */
  method SearchRestaurants(geocode: Fetched<GeoResponse>, nearby: Fetched<SearchResponse>,
                           details: string -> Option<Details>, maxResults: int)
    returns (restaurants: Option<seq<Place>>)
    ensures restaurants == SearchResult(geocode, nearby, details, maxResults)
  {
    if !geocode.Got? {
      return Some([]);
    }
    var geo := geocode.response;
    if geo.status != StatusOk {
      return Some([]);
    }
    if geo.results == [] {
      return None;
    }
    if !nearby.Got? {
      return Some([]);
    }
    var res := nearby.response;
    if res.status == "OVER_QUERY_LIMIT" {
      return Some([]);
    }
    if res.status != StatusOk {
      return Some([]);
    }
    var items := SliceTo(res.results, maxResults);
    var out: seq<Place> := [];
    var answer: Option<Details> := None;
    for i := 0 to |items|
      invariant Shaped(items[..i], details) == Some(out)
      invariant answer == LastAnswer(items[..i], details)
    {
      assert items[..i + 1][..i] == items[..i];
      var pid := items[i].placeId;
      if !Truthy(pid) {
        continue;
      }
      var got := details(pid.value);
      if got.Some? {
        answer := got;
      }
      if answer.None? {
        ShapedStaysRaised(items, details, i + 1);
        return None;
      }
      out := out + [ShapeEntry(items[i], pid.value, answer.value)];
    }
    assert items[..|items|] == items;
    restaurants := Some(out);
  }

  // ----------------------------------------------------------- properties

  /** The items with a place_id, in order. */
  function WithId(items: seq<Item>): (r: seq<Item>)
    ensures |r| <= |items|
    ensures forall it :: it in r ==> Truthy(it.placeId)
  {
    if items == [] then []
    else WithId(items[..|items| - 1]) + (if Truthy(items[|items| - 1].placeId) then [items[|items| - 1]] else [])
  }

  /** Once the search has raised it stays raised. */
  lemma {:induction false} ShapedStaysRaised(items: seq<Item>, details: string -> Option<Details>, i: int)
    requires 0 <= i <= |items| && Shaped(items[..i], details).None?
    ensures Shaped(items, details).None?
    decreases |items|
  {
    if i < |items| {
      assert items[..|items| - 1][..i] == items[..i];
      ShapedStaysRaised(items[..|items| - 1], details, i);
    } else {
      assert items[..i] == items;
    }
  }

  /** The loop's response is unbound exactly while no item has a place_id,
      and bound from the first details request on when that one answered. */
  lemma {:induction false} LastAnswerBound(items: seq<Item>, details: string -> Option<Details>)
    ensures WithId(items) == [] ==> LastAnswer(items, details).None?
    ensures WithId(items) != [] && details(WithId(items)[0].placeId.value).Some? ==> LastAnswer(items, details).Some?
    decreases |items|
  {
    if items != [] {
      var init := items[..|items| - 1];
      LastAnswerBound(init, details);
      if WithId(init) != [] {
        assert WithId(items)[0] == WithId(init)[0];
      }
    }
  }

  /** The search raises exactly when the first details request raises. */
  lemma {:induction false} ShapedRaises(items: seq<Item>, details: string -> Option<Details>)
    ensures Shaped(items, details).None? <==>
              WithId(items) != [] && details(WithId(items)[0].placeId.value).None?
    decreases |items|
  {
    if items != [] {
      var init := items[..|items| - 1];
      ShapedRaises(init, details);
      LastAnswerBound(init, details);
      if WithId(init) != [] {
        assert WithId(items)[0] == WithId(init)[0];
      }
    }
  }

  /** The record for the `k`-th item with a place_id carries that item's
      name, place_id, map link, rating and review count, and when its own
      details request answered, is built from that answer. */
  lemma {:induction false} ShapedAt(items: seq<Item>, details: string -> Option<Details>, k: int)
    requires Shaped(items, details).Some?
    requires 0 <= k < |WithId(items)|
    ensures |Shaped(items, details).value| == |WithId(items)|
    ensures var it := WithId(items)[k];
            var p := Shaped(items, details).value[k];
            && p.name == it.name && p.placeId == it.placeId && it.placeId.value != ""
            && p.mapUrl == Some(MapUrlPrefix + it.placeId.value)
            && p.rating == Some(it.rating.GetOr(0.0))
            && p.userRatingsTotal == Some(it.userRatingsTotal.GetOr(0))
            && (details(it.placeId.value).Some? ==> p == ShapeEntry(it, it.placeId.value, details(it.placeId.value).value))
    decreases |items|
  {
    var init := items[..|items| - 1];
    var last := items[|items| - 1];
    assert Shaped(init, details).Some?;
    if k < |WithId(init)| {
      ShapedAt(init, details, k);
      assert WithId(items)[k] == WithId(init)[k];
    } else {
      ShapedLength(init, details);
      assert WithId(items)[k] == last;
    }
    ShapedLength(items, details);
  }

  /** One record per item with a place_id. */
  lemma {:induction false} ShapedLength(items: seq<Item>, details: string -> Option<Details>)
    requires Shaped(items, details).Some?
    ensures |Shaped(items, details).value| == |WithId(items)|
    decreases |items|
  {
    if items != [] {
      ShapedLength(items[..|items| - 1], details);
    }
  }

  /** One record per item with a place_id, in order; each carries its item's
      place_id, name, rating and review count (0 when missing) and the map
      link built from the place_id; when the item's details request
      answered, the address, phone, website, price level and opening hours
      come from that answer. */
  lemma ShapedSpec(items: seq<Item>, details: string -> Option<Details>)
    requires Shaped(items, details).Some?
    ensures |Shaped(items, details).value| == |WithId(items)| <= |items|
    ensures forall k :: 0 <= k < |WithId(items)| ==>
      var it := WithId(items)[k];
      var p := Shaped(items, details).value[k];
      && p.name == it.name && p.placeId == it.placeId && it.placeId.value != ""
      && p.mapUrl == Some(MapUrlPrefix + it.placeId.value)
      && p.rating == Some(it.rating.GetOr(0.0))
      && p.userRatingsTotal == Some(it.userRatingsTotal.GetOr(0))
      && (details(it.placeId.value).Some? ==> p == ShapeEntry(it, it.placeId.value, details(it.placeId.value).value))
  {
    ShapedLength(items, details);
    forall k | 0 <= k < |WithId(items)|
      ensures var it := WithId(items)[k];
        var p := Shaped(items, details).value[k];
        && p.name == it.name && p.placeId == it.placeId && it.placeId.value != ""
        && p.mapUrl == Some(MapUrlPrefix + it.placeId.value)
        && p.rating == Some(it.rating.GetOr(0.0))
        && p.userRatingsTotal == Some(it.userRatingsTotal.GetOr(0))
        && (details(it.placeId.value).Some? ==> p == ShapeEntry(it, it.placeId.value, details(it.placeId.value).value))
    {
      ShapedAt(items, details, k);
    }
  }

  /** A details request that raises after an earlier one answered reuses
      the earlier response: the second restaurant gets the first one's
      address, phone, website, price level and opening hours. */
  lemma StaleDetailsReused(a: Item, b: Item, details: string -> Option<Details>, d: Details)
    requires Truthy(a.placeId) && Truthy(b.placeId)
    requires details(a.placeId.value) == Some(d) && details(b.placeId.value).None?
    ensures Shaped([a, b], details)
         == Some([ShapeEntry(a, a.placeId.value, d), ShapeEntry(b, b.placeId.value, d)])
  {
    var ea, eb := ShapeEntry(a, a.placeId.value, d), ShapeEntry(b, b.placeId.value, d);
    assert [a][..0] == [] && Shaped([], details) == Some([]);
    assert [] + [ea] == [ea];
    assert Shaped([a], details) == Some([ea]);
    assert [a, b][..1] == [a] && [ea] + [eb] == [ea, eb];
  }

  /** The search never yields more than `maxResults` records. */
  lemma SearchBound(geocode: Fetched<GeoResponse>, nearby: Fetched<SearchResponse>,
                    details: string -> Option<Details>, maxResults: int)
    requires maxResults >= 0
    ensures SearchResult(geocode, nearby, details, maxResults).Some? ==>
              |SearchResult(geocode, nearby, details, maxResults).value| <= maxResults
  {
    if geocode.Got? && geocode.response.status == StatusOk && geocode.response.results != []
       && nearby.Got? && nearby.response.status == StatusOk
       && Shaped(SliceTo(nearby.response.results, maxResults), details).Some? {
      ShapedLength(SliceTo(nearby.response.results, maxResults), details);
    }
  }

  /** A search whose quota is exhausted yields nothing. */
  lemma OverQueryLimitYieldsNothing(geocode: Fetched<GeoResponse>, details: string -> Option<Details>,
                                    results: seq<Item>, maxResults: int)
    requires geocode.Got? && geocode.response.status == StatusOk && geocode.response.results != []
    ensures SearchResult(geocode, Got(SearchResponse("OVER_QUERY_LIMIT", results)), details, maxResults) == Some([])
  {
  }

  /** A resolved location whose viewport is within `MaxSpan` both ways is
      accepted, and one beyond it either way is refused. */
  lemma ViewportDecides(location: string, status: string, first: GeoResult, rest: seq<GeoResult>)
    requires location != "" && status == StatusOk && first.viewport.Some?
    ensures LocationIsTooLarge(location, Got(GeoResponse(status, [first] + rest)))
            <==> Abs(first.viewport.value.neLat - first.viewport.value.swLat) > MaxSpan
                 || Abs(first.viewport.value.neLng - first.viewport.value.swLng) > MaxSpan
  {
    assert ([first] + rest)[0] == first;
  }
}
