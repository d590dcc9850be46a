/** The recommender's database, held in memory: one row per place_id, the
    reviews stored for each restaurant, and the log of recommendations. The
    helpers that write to it are the ones in the recommender agent module;
    the clock is a parameter counted in seconds. */
module Store {
  import opened Wrappers
  import opened Text
  import opened Records

  const SecondsPerDay: int := 86400

  /** A `restaurants` row. `name` cannot be null: a write without one is
      refused at commit and rolled back. */
  datatype Row = Row(
    name: string,
    address: Option<string>,
    rating: Option<real>,
    userRatingsTotal: Option<int>,
    phone: Option<string>,
    website: Option<string>,
    mapUrl: Option<string>,
    lastUpdate: Option<int>)

  /** A `recommendations` row. */
  datatype Recommendation = Recommendation(
    userInput: Option<string>,
    location: Option<string>,
    category: Option<string>,
    topPlaceIds: string,
    ranked: seq<Entry>)

  /** The row an upsert writes for `info` at time `now`. */
  function RowOf(info: Place, now: int): Row
    requires info.name.Some?
  {
    Row(info.name.value, info.address, info.rating, info.userRatingsTotal,
        info.phone, info.website, info.mapUrl, Some(now))
  }

  /** Whole days elapsed from `since` to `now`, rounded down the way
      `timedelta.days` rounds (also for a clock that went backwards). */
  function AgeDays(now: int, since: int): (d: int)
    ensures d * SecondsPerDay <= now - since < (d + 1) * SecondsPerDay
  {
    (now - since) / SecondsPerDay
  }

  /** A review as stored: a missing text becomes the empty text. */
  function Normalized(rs: seq<Review>): (r: seq<Review>)
    ensures |r| == |rs|
    ensures forall i :: 0 <= i < |rs| ==>
      r[i].stars == rs[i].stars && r[i].text == Some(rs[i].text.GetOr(""))
  {
    if rs == [] then []
    else Normalized(rs[..|rs| - 1]) + [Review(Some(rs[|rs| - 1].text.GetOr("")), rs[|rs| - 1].stars)]
  }

  /** The place_ids of the first three entries, skipping missing or empty ones. */
  function TopPlaceIds(ranked: seq<Entry>): (ids: seq<string>)
    ensures |ids| <= 3 && |ids| <= |ranked|
    ensures forall id :: id in ids ==> id != "" && exists k :: 0 <= k < |ranked| && k < 3 && ranked[k].place.placeId == Some(id)
  {
    TopIdsOf(ranked[..if |ranked| < 3 then |ranked| else 3])
  }

  function TopIdsOf(front: seq<Entry>): (ids: seq<string>)
    ensures |ids| <= |front|
    ensures forall id :: id in ids ==> id != "" && exists k :: 0 <= k < |front| && front[k].place.placeId == Some(id)
  {
    if front == [] then []
    else
      var init := TopIdsOf(front[..|front| - 1]);
      var pid := front[|front| - 1].place.placeId;
      if Truthy(pid) then init + [pid.value] else init
  }

  class Db {
    var rows: map<string, Row>
    var reviews: map<string, seq<Review>>
    var records: seq<Recommendation>

    /** Reviews belong to stored restaurants. */
    ghost predicate Valid()
      reads this
    {
      reviews.Keys <= rows.Keys
    }

    constructor ()
      ensures Valid()
      ensures rows == map[] && reviews == map[] && records == []
    {
      rows := map[];
      reviews := map[];
      records := [];
    }

    /** `upsert_restaurant_from_dict`: writes the row for the place_id,
        creating it if needed and overwriting all seven fields and the
        timestamp. Nothing is written without a place_id, nor when the
        commit is refused for a missing name. */
    method UpsertRestaurantFromDict(info: Place, now: int) returns (written: Option<Row>)
      requires Valid()
      modifies this
      ensures Valid()
      ensures written.Some? <==> Truthy(info.placeId) && info.name.Some?
      ensures written.Some? ==> written.value == RowOf(info, now)
                                && rows == old(rows)[info.placeId.value := RowOf(info, now)]
      ensures written.None? ==> rows == old(rows)
      ensures reviews == old(reviews) && records == old(records)
    {
      if !Truthy(info.placeId) {
        return None;
      }
      var pid := info.placeId.value;
      if info.name.None? {
        return None;
      }
      var row := RowOf(info, now);
      rows := rows[pid := row];
      written := Some(row);
    }

    /** `get_cached_reviews_if_fresh`: the stored reviews of a restaurant
        whose timestamp is at most `cacheDays` whole days old, when there
        are any. */
    function CachedReviewsIfFresh(pid: string, cacheDays: int, now: int): (r: Option<seq<Review>>)
      reads this
      ensures r.Some? <==> pid in rows && rows[pid].lastUpdate.Some?
                           && AgeDays(now, rows[pid].lastUpdate.value) <= cacheDays
                           && pid in reviews && reviews[pid] != []
      ensures r.Some? ==> r.value == reviews[pid]
    {
      if pid !in rows || rows[pid].lastUpdate.None? then None
      else if AgeDays(now, rows[pid].lastUpdate.value) > cacheDays then None
      else if pid !in reviews || reviews[pid] == [] then None
      else Some(reviews[pid])
    }

    /** `replace_reviews_in_db`: the restaurant's reviews become exactly the
        new list (missing texts stored as ""). No effect for an empty
        place_id or an unknown restaurant. */
    method ReplaceReviewsInDb(pid: string, newReviews: seq<Review>)
      requires Valid()
      modifies this
      ensures Valid()
      ensures pid != "" && pid in old(rows) ==> reviews == old(reviews)[pid := Normalized(newReviews)]
      ensures !(pid != "" && pid in old(rows)) ==> reviews == old(reviews)
      ensures rows == old(rows) && records == old(records)
    {
      if pid == "" || pid !in rows {
        return;
      }
      var stored: seq<Review> := [];
      for i := 0 to |newReviews|
        invariant stored == Normalized(newReviews[..i])
      {
        assert newReviews[..i + 1][..i] == newReviews[..i];
        var text := newReviews[i].text.GetOr("");
        stored := stored + [Review(Some(text), newReviews[i].stars)];
      }
      assert newReviews[..|newReviews|] == newReviews;
      reviews := reviews[pid := stored];
    }

    /** `insert_recommendation_record`: appends one record holding the query,
        the comma-joined place_ids of the top three and the full ranking.
        A failing commit is rolled back and adds nothing. */
    method InsertRecommendationRecord(userInput: Option<string>, location: Option<string>,
                                      category: Option<string>, ranked: seq<Entry>, commitFails: bool)
      requires Valid()
      modifies this
      ensures Valid()
      ensures !commitFails ==>
        records == old(records) + [Recommendation(userInput, location, category, Join(",", TopPlaceIds(ranked)), ranked)]
      ensures commitFails ==> records == old(records)
      ensures rows == old(rows) && reviews == old(reviews)
    {
      var n := if |ranked| < 3 then |ranked| else 3;
      var topIds: seq<string> := [];
      for k := 0 to n
        invariant topIds == TopIdsOf(ranked[..k])
      {
        assert ranked[..k + 1][..k] == ranked[..k];
        var pid := ranked[k].place.placeId;
        if Truthy(pid) {
          topIds := topIds + [pid.value];
        }
      }
      if commitFails {
        return;
      }
      records := records + [Recommendation(userInput, location, category, Join(",", topIds), ranked)];
    }
  }

  /** A row stamped at `now` is never stale at `now`: its age is 0 days. */
  lemma StampedRowIsFresh(now: int, cacheDays: int)
    requires cacheDays >= 0
    ensures AgeDays(now, now) == 0 <= cacheDays
  {
  }

  /** A timestamp exactly `cacheDays` days old is still fresh; one second
      past `cacheDays + 1` days it is stale. */
  lemma FreshnessBoundary(since: int, cacheDays: nat)
    ensures AgeDays(since + (cacheDays + 1) * SecondsPerDay - 1, since) == cacheDays
    ensures AgeDays(since + (cacheDays + 1) * SecondsPerDay, since) == cacheDays + 1
  {
    var a := AgeDays(since + (cacheDays + 1) * SecondsPerDay - 1, since);
    var b := AgeDays(since + (cacheDays + 1) * SecondsPerDay, since);
    assert a * SecondsPerDay <= (cacheDays + 1) * SecondsPerDay - 1 < (a + 1) * SecondsPerDay;
    assert b * SecondsPerDay <= (cacheDays + 1) * SecondsPerDay < (b + 1) * SecondsPerDay;
  }

  /** The stored top ids read back with a comma split are the ids written,
      when there is at least one and none contains a comma. */
  lemma TopPlaceIdsRoundTrip(ranked: seq<Entry>)
    requires TopPlaceIds(ranked) != []
    requires forall id :: id in TopPlaceIds(ranked) ==> ',' !in id
    ensures SplitOn(Join(",", TopPlaceIds(ranked)), ',') == TopPlaceIds(ranked)
  {
    SplitJoinRoundTrip(TopPlaceIds(ranked), ',');
  }

  lemma {:induction false} NoTruthyIdsGiveNone(front: seq<Entry>)
    requires forall k :: 0 <= k < |front| ==> !Truthy(front[k].place.placeId)
    ensures TopIdsOf(front) == []
  {
    if front != [] {
      NoTruthyIdsGiveNone(front[..|front| - 1]);
    }
  }

  /** With no usable place_id among the top three the stored field is "",
      which a comma split reads back as one empty id, not as none. */
  lemma NoTopIdsReadsBackAsOneEmptyId(ranked: seq<Entry>)
    requires forall k :: 0 <= k < |ranked| && k < 3 ==> !Truthy(ranked[k].place.placeId)
    ensures Join(",", TopPlaceIds(ranked)) == ""
    ensures SplitOn(Join(",", TopPlaceIds(ranked)), ',') == [""]
  {
    NoTruthyIdsGiveNone(ranked[..if |ranked| < 3 then |ranked| else 3]);
  }
}
