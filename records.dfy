/** The records the recommender passes between its steps. In the source they
    are dictionaries; a key that may be missing or hold `None` is an `Option`
    here. */
module Records {
  import opened Wrappers

  /** A restaurant as the place search returns it and as the store receives it. */
  datatype Place = Place(
    name: Option<string>,
    placeId: Option<string>,
    rating: Option<real>,
    userRatingsTotal: Option<int>,
    address: Option<string>,
    mapUrl: Option<string>,
    phone: Option<string>,
    website: Option<string>,
    priceLevel: Option<int>,
    openingHours: Option<seq<string>>)

  /** One review: its text and the star rating parsed from the page. */
  datatype Review = Review(text: Option<string>, stars: Option<real>)

  /** A restaurant together with the reviews fetched for it. */
  datatype Batch = Batch(restaurant: Place, reviews: seq<Review>)

  /** What the review analysis adds to a restaurant. */
  datatype Analysis = Analysis(summary: string, matchScore: real, positiveRate: real, reason: string)

  /** An entry of the ranking input: a restaurant with its analysis, or a bare
      restaurant when no reviews could be fetched for any of them. */
  datatype Entry = Entry(place: Place, analysis: Option<Analysis>)

  /** Python truthiness of an optional string: present and not empty. */
  predicate Truthy(s: Option<string>) {
    s.Some? && s.value != ""
  }

  /** The hard dietary constraints the classifier recognises. */
  datatype StrongTag = NoBeef | NoSpicy | Vegetarian | Halal | NoPork {
    /** The code the source stores for the constraint. */
    function Code(): string {
      match this
      case NoBeef => "no_beef"
      case NoSpicy => "no_spicy"
      case Vegetarian => "vegetarian"
      case Halal => "halal"
      case NoPork => "no_pork"
    }
  }

  /** Classified preferences: hard constraints and free-text wishes. */
  datatype Prefs = Prefs(strong: seq<StrongTag>, weak: seq<string>)
}
