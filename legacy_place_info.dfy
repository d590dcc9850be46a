/** The place tool of the first version: the same "location too large"
    decision, skipped when its own key variable is unset, and a text search
    whose items become records without a place_id filter. */
module LegacyPlaceInfo {
  import opened Wrappers
  import opened Text
  import opened Records
  import opened PlaceInfo

  /** The first version's `location_is_too_large`: after the empty check,
      a missing `GOOGLE_PLACE_API_KEY` skips the check. */
  function LocationIsTooLarge(location: string, placeKeySet: bool, geocode: Fetched<GeoResponse>): (r: bool)
    ensures location == "" ==> r
    ensures location != "" && !placeKeySet ==> !r
    ensures placeKeySet ==> r == PlaceInfo.LocationIsTooLarge(location, geocode)
  {
    if location == "" then true
    else if !placeKeySet then false
    else match geocode
      case TimedOut => false
      case Failed => false
      case Got(data) =>
        if data.status != StatusOk || data.results == [] then true
        else match data.results[0].viewport
          case Some(v) => SpansTooFar(v)
          case None => false
  }

  /** How a place_id is written into the map link: `None` prints as "None". */
  function IdText(pid: Option<string>): string {
    match pid
    case Some(s) => s
    case None => "None"
  }

  /** The record built for a text-search item. */
  function LegacyEntry(item: Item): Place {
    Place(
      item.name,
      item.placeId,
      Some(item.rating.GetOr(0.0)),
      Some(item.userRatingsTotal.GetOr(0)),
      Some(item.formattedAddress.GetOr("")),
      Some(MapUrlPrefix + IdText(item.placeId)),
      None, None, None, None)
  }

  function LegacyShaped(items: seq<Item>): (r: seq<Place>)
    ensures |r| == |items|
    ensures forall k :: 0 <= k < |items| ==> r[k] == LegacyEntry(items[k])
  {
    if items == [] then [] else LegacyShaped(items[..|items| - 1]) + [LegacyEntry(items[|items| - 1])]
  }

  /** What the first version's `search_restaurants` yields: nothing on a
      failed request or a status other than OK. */
  function LegacySearchResult(search: Fetched<SearchResponse>, maxResults: int): (r: seq<Place>)
    ensures !search.Got? || search.response.status != StatusOk ==> r == []
    ensures search.Got? && search.response.status == StatusOk ==>
              forall k :: 0 <= k < |r| ==> k < |search.response.results| && r[k] == LegacyEntry(search.response.results[k])
  {
    match search
    case TimedOut => []
    case Failed => []
    case Got(data) => if data.status != StatusOk then [] else LegacyShaped(SliceTo(data.results, maxResults))
  }

  /** The first version's `search_restaurants`. */
  method SearchRestaurants(search: Fetched<SearchResponse>, maxResults: int) returns (restaurants: seq<Place>)
    ensures restaurants == LegacySearchResult(search, maxResults)
  {
    if !search.Got? || search.response.status != StatusOk {
      return [];
    }
    var items := SliceTo(search.response.results, maxResults);
    restaurants := [];
    for i := 0 to |items|
      invariant restaurants == LegacyShaped(items[..i])
    {
      assert items[..i + 1][..i] == items[..i];
      restaurants := restaurants + [LegacyEntry(items[i])];
    }
    assert items[..|items|] == items;
  }

  /** At most `maxResults` records, one per item in item order, including
      items without a place_id. */
  lemma LegacySearchBound(search: Fetched<SearchResponse>, maxResults: int)
    requires maxResults >= 0
    ensures |LegacySearchResult(search, maxResults)| <= maxResults
    ensures search.Got? && search.response.status == StatusOk ==>
      |LegacySearchResult(search, maxResults)| == if maxResults < |search.response.results| then maxResults else |search.response.results|
  {
  }

  /** An item without a place_id is kept, with "None" in its map link. */
  lemma MissingIdKept(item: Item)
    requires item.placeId.None?
    ensures LegacySearchResult(Got(SearchResponse(StatusOk, [item])), 10)
         == [LegacyEntry(item)]
    ensures LegacyEntry(item).mapUrl == Some(MapUrlPrefix + "None")
  {
    assert SliceTo([item], 10) == [item];
  }
}
