/** The persistence helpers of `db_writer.py`, as operations on the same
    in-memory store. Unlike the recommender's own helpers they do not skip
    a missing place_id: the lookup raises instead, and so does a commit
    that would store a null place_id or name. */
module DbWriter {
  import opened Wrappers
  import opened Text
  import opened Records
  import opened Store

  /** How a helper call ends: the commit went through, or an exception
      escaped to the caller with nothing stored. */
  datatype Outcome = Written | Raised

  /** `upsert_restaurant`: one row per place_id, created when missing, all
      seven fields overwritten and the timestamp set. A missing place_id
      key, or a null place_id or name, raises and stores nothing. */
  method UpsertRestaurant(db: Db, info: Place, now: int) returns (outcome: Outcome)
    requires db.Valid()
    modifies db
    ensures db.Valid()
    ensures outcome == Written <==> info.placeId.Some? && info.name.Some?
    ensures outcome == Written ==> db.rows == old(db.rows)[info.placeId.value := RowOf(info, now)]
    ensures outcome == Raised ==> db.rows == old(db.rows)
    ensures db.reviews == old(db.reviews) && db.records == old(db.records)
  {
    if info.placeId.None? || info.name.None? {
      return Raised;
    }
    var pid := info.placeId.value;
    db.rows := db.rows[pid := RowOf(info, now)];
    outcome := Written;
  }

  /** `upsert_reviews`: for a stored restaurant the reviews become exactly
      the given list, texts as given; for an unknown place_id nothing
      changes. The restaurant row, timestamp included, is not touched. */
  method UpsertReviews(db: Db, pid: string, reviews: seq<Review>)
    requires db.Valid()
    modifies db
    ensures db.Valid()
    ensures pid in old(db.rows) ==> db.reviews == old(db.reviews)[pid := reviews]
    ensures pid !in old(db.rows) ==> db.reviews == old(db.reviews)
    ensures db.rows == old(db.rows) && db.records == old(db.records)
  {
    if pid !in db.rows {
      return;
    }
    var added: seq<Review> := [];
    for i := 0 to |reviews|
      invariant added == reviews[..i]
    {
      assert reviews[..i + 1] == reviews[..i] + [reviews[i]];
      added := added + [Review(reviews[i].text, reviews[i].stars)];
    }
    assert reviews[..|reviews|] == reviews;
    db.reviews := db.reviews[pid := added];
  }

  /** `insert_recommendation`: one more record holding the comma-joined
      place_ids of the top three and the whole ranking; on an exception the
      session is rolled back and nothing is added. */
  method InsertRecommendation(db: Db, userInput: Option<string>, location: Option<string>,
                              category: Option<string>, ranked: seq<Entry>, commitFails: bool)
    requires db.Valid()
    modifies db
    ensures db.Valid()
    ensures !commitFails ==>
      db.records == old(db.records) + [Recommendation(userInput, location, category, Join(",", TopPlaceIds(ranked)), ranked)]
    ensures commitFails ==> db.records == old(db.records)
    ensures db.rows == old(db.rows) && db.reviews == old(db.reviews)
  {
    var top3 := TopIdsOf(ranked[..if |ranked| < 3 then |ranked| else 3]);
    if commitFails {
      return;
    }
    db.records := db.records + [Recommendation(userInput, location, category, Join(",", top3), ranked)];
  }

  /** Upserting two records with the same place_id keeps one row for it,
      the second write's, and adds at most one row. */
  method UpsertTwiceKeepsLast(db: Db, first: Place, second: Place, now: int)
    requires db.Valid()
    requires first.placeId.Some? && first.name.Some? && second.name.Some? && second.placeId == first.placeId
    modifies db
    ensures db.Valid()
    ensures db.rows == old(db.rows)[first.placeId.value := RowOf(second, now)]
    ensures |db.rows.Keys| <= |old(db.rows).Keys| + 1
  {
    var pid := first.placeId.value;
    ghost var before := db.rows;
    var one := UpsertRestaurant(db, first, now);
    var two := UpsertRestaurant(db, second, now);
    assert before[pid := RowOf(first, now)][pid := RowOf(second, now)] == before[pid := RowOf(second, now)];
    assert db.rows.Keys == before.Keys + {pid};
  }
}
