/** The review scraper of the recommender: file-name sanitising, star
    parsing, and the extraction loop that turns the review elements of a
    loaded page into review records (deduplicated on the raw text, capped at
    `max_reviews`). The browser session is an input: a `ScrapeRun` says
    whether the review button was found and, if so, what each review
    element yields. */
module ReviewScraper {
  import opened Wrappers
  import opened Text
  import opened Records
  import opened Sorting

  // ----------------------------------------------------------- file names

  /** The characters `sanitize_filename` deletes. */
  const IllegalChars: string := "\\/*?:\"<>|"

  /** Deletes every character of `IllegalChars`, keeping the others in order. */
  function RemoveIllegal(s: string): (r: string)
    ensures forall c :: c in r <==> c in s && c !in IllegalChars
    ensures |r| <= |s|
  {
    if s == [] then []
    else (if s[0] in IllegalChars then [] else [s[0]]) + RemoveIllegal(s[1..])
  }

  /** `sanitize_filename`: the illegal characters removed, then the white
      space at both ends stripped. */
  function SanitizeFilename(name: string): (r: string)
    ensures forall c :: c in r ==> c in name && c !in IllegalChars
    ensures r == [] || (!IsSpace(r[0]) && !IsSpace(r[|r| - 1]))
  {
    var removed := RemoveIllegal(name);
    StripSpec(removed);
    StripKeepsChars(removed);
    Strip(removed)
  }

  lemma {:induction false} RemoveIllegalKeepsClean(s: string)
    requires forall c :: c in s ==> c !in IllegalChars
    ensures RemoveIllegal(s) == s
  {
    if s != [] {
      RemoveIllegalKeepsClean(s[1..]);
      assert [s[0]] + s[1..] == s;
    }
  }

  /** Sanitising a sanitised name changes nothing. */
  lemma SanitizeIdempotent(name: string)
    ensures SanitizeFilename(SanitizeFilename(name)) == SanitizeFilename(name)
  {
    var once := SanitizeFilename(name);
    RemoveIllegalKeepsClean(once);
    StripSpec(once);
    StripIdempotent(RemoveIllegal(name));
  }

  // ---------------------------------------------------------------- stars

  predicate IsDigit(c: char) {
    '0' <= c <= '9'
  }

  function DigitValue(c: char): real
    requires IsDigit(c)
  {
    (c as int - '0' as int) as real
  }

  /** The position of the first digit of `s`, or -1. */
  function FirstDigit(s: string): (i: int)
    ensures -1 <= i < |s|
    ensures i != -1 ==> IsDigit(s[i])
  {
    if s == [] then -1
    else if IsDigit(s[0]) then 0
    else var k := FirstDigit(s[1..]); if k == -1 then -1 else k + 1
  }

  /** The position found is the first digit, and -1 means there is none. */
  lemma {:induction false} FirstDigitSpec(s: string)
    ensures FirstDigit(s) == -1 <==> forall k :: 0 <= k < |s| ==> !IsDigit(s[k])
    ensures FirstDigit(s) != -1 ==> forall k :: 0 <= k < FirstDigit(s) ==> !IsDigit(s[k])
    decreases |s|
  {
    if s != [] && !IsDigit(s[0]) {
      FirstDigitSpec(s[1..]);
      forall k | 1 <= k < |s| ensures s[k] == s[1..][k - 1] {
      }
    }
  }

  /** The star rating from the aria-label: the first match of a digit
      optionally followed by "." and a digit, or none without a digit. A
      missing label reads as "". */
  function ParseStars(raw: Option<string>): (r: Option<real>)
    ensures r.Some? ==> 0.0 <= r.value < 10.0
  {
    var s := raw.GetOr("");
    var i := FirstDigit(s);
    if i == -1 then None
    else if i + 2 < |s| && s[i + 1] == '.' && IsDigit(s[i + 2]) then
      Some(DigitValue(s[i]) + DigitValue(s[i + 2]) / 10.0)
    else Some(DigitValue(s[i]))
  }

  /** A label reads as no rating exactly when it holds no digit. */
  lemma ParseStarsNone(raw: Option<string>)
    ensures var s := raw.GetOr("");
            ParseStars(raw).None? <==> forall k :: 0 <= k < |s| ==> !IsDigit(s[k])
  {
    FirstDigitSpec(raw.GetOr(""));
  }

  /** The labels the site shows read as their rating, the fractional digit
      included; a dot without a digit after it is not part of the match. */
  lemma ParseStarsExamples()
    ensures ParseStars(Some("5 顆星")) == Some(5.0)
    ensures ParseStars(Some("評分 4.5")) == Some(4.5)
    ensures ParseStars(Some("4. 顆星")) == Some(4.0)
    ensures ParseStars(Some("無評分")) == None
    ensures ParseStars(None) == None
  {
    assert FirstDigit("評分 4.5") == 3 by {
      assert !IsDigit("評分 4.5"[0]) && !IsDigit("評分 4.5"[1]) && !IsDigit("評分 4.5"[2]);
    }
  }

  // ---------------------------------------------------- extraction loop

  /** What one review element yields when both lookups succeed: the text
      of its review span and the aria-label of its star span. */
  datatype Element = Element(text: string, ariaLabel: Option<string>)

  /** One browser session: the review button was not found (or the reviews
      did not appear in time), something raised, or the page loaded with
      these review elements. `None` marks an element whose lookups raise. */
  datatype ScrapeRun = ButtonMissing | Crashed | Loaded(elements: seq<Option<Element>>)

  /** The raw texts of some elements. */
  function TextsOf(es: seq<Element>): set<string> {
    set e | e in es :: e.text
  }

  /** The elements that get past the `seen` test: in page order, every
      readable element whose raw text no earlier readable element had. */
  function FirstSeen(page: seq<Option<Element>>): seq<Element> {
    if page == [] then []
    else
      var prev := FirstSeen(page[..|page| - 1]);
      var last := page[|page| - 1];
      if last.Some? && last.value.text !in TextsOf(prev) then prev + [last.value] else prev
  }

  /** The record stored for an element: the stripped text and the parsed stars. */
  function ToReview(e: Element): Review {
    Review(Some(Strip(e.text)), ParseStars(e.ariaLabel))
  }

  function ToReviews(es: seq<Element>): (r: seq<Review>)
    ensures |r| == |es|
  {
    if es == [] then [] else ToReviews(es[..|es| - 1]) + [ToReview(es[|es| - 1])]
  }

  /** The record at position `i` is that of the element at `i`. */
  lemma {:induction false} ToReviewsAt(es: seq<Element>, i: int)
    requires 0 <= i < |es|
    ensures ToReviews(es)[i] == ToReview(es[i])
    decreases |es|
  {
    if i < |es| - 1 {
      ToReviewsAt(es[..|es| - 1], i);
    }
  }

  /** How many reviews the loop as written stops at: the cap is tested only
      after an append, so a cap below 1 still lets the first review in. */
  function CapAsWritten(maxReviews: int): nat {
    if maxReviews < 1 then 1 else maxReviews
  }

  /** What the extraction loop as written returns. */
  function ScrapedAsWritten(page: seq<Option<Element>>, maxReviews: int): seq<Review> {
    ToReviews(Take(FirstSeen(page), CapAsWritten(maxReviews)))
  }

  /** What the extraction loop returns with the cap tested before each
      element: never more than `maxReviews`. */
  function Scraped(page: seq<Option<Element>>, maxReviews: int): seq<Review> {
    ToReviews(Take(FirstSeen(page), maxReviews))
  }

  lemma {:induction false} FirstSeenIsPrefixClosed(page: seq<Option<Element>>, k: nat)
    requires k <= |page|
    ensures |FirstSeen(page[..k])| <= |FirstSeen(page)|
    ensures FirstSeen(page[..k]) == FirstSeen(page)[..|FirstSeen(page[..k])|]
    decreases |page|
  {
    if k < |page| {
      var init := page[..|page| - 1];
      FirstSeenIsPrefixClosed(init, k);
      assert init[..k] == page[..k];
    } else {
      assert page[..k] == page;
    }
  }

  /** One more element of the page: it is kept exactly when it is readable
      and its raw text is new. */
  lemma FirstSeenStep(page: seq<Option<Element>>, i: nat)
    requires i < |page|
    ensures FirstSeen(page[..i + 1])
         == if page[i].Some? && page[i].value.text !in TextsOf(FirstSeen(page[..i]))
            then FirstSeen(page[..i]) + [page[i].value] else FirstSeen(page[..i])
  {
    assert page[..i + 1][..i] == page[..i];
  }

  /** A prefix of the page that yields exactly `cap` kept elements yields
      the first `cap` kept elements of the whole page. */
  lemma CappedPrefix(page: seq<Option<Element>>, k: nat, cap: int)
    requires k <= |page|
    requires |FirstSeen(page[..k])| == (if cap < 0 then 0 else cap)
    ensures FirstSeen(page[..k]) == Take(FirstSeen(page), cap)
  {
    FirstSeenIsPrefixClosed(page, k);
  }

  lemma TakeAll<T>(s: seq<T>, n: int)
    requires |s| <= (if n < 0 then 0 else n)
    ensures Take(s, n) == s
  {
    if n > 0 {
      assert s[..|s|] == s;
    }
  }

  lemma Snoc3<T>(x: T, y: T, z: T)
    ensures [x] + [y] + [z] == [x, y, z]
  {
  }

  lemma TakePair<T>(x: T, y: T, n: int)
    requires n >= 2
    ensures Take([x, y], n) == [x, y]
  {
  }

  lemma TakeSingle<T>(x: T, n: int)
    requires n >= 1
    ensures Take([x], n) == [x]
  {
  }

  lemma KeepOne(kept: seq<Element>, e: Element)
    ensures TextsOf(kept + [e]) == TextsOf(kept) + {e.text}
    ensures ToReviews(kept + [e]) == ToReviews(kept) + [ToReview(e)]
  {
    assert (kept + [e])[..|kept|] == kept;
  }

  /** The extraction loop of `scrape_reviews_tw` as written: the `seen` set
      holds raw texts, the stored text is stripped, and the cap is tested
      after each append. */
  method ExtractReviewsAsWritten(page: seq<Option<Element>>, maxReviews: int) returns (reviews: seq<Review>)
    ensures reviews == ScrapedAsWritten(page, maxReviews)
  {
    reviews := [];
    var seen: set<string> := {};
    ghost var kept: seq<Element> := [];
    var i := 0;
    while i < |page|
      invariant 0 <= i <= |page|
      invariant kept == FirstSeen(page[..i])
      invariant reviews == ToReviews(kept) && seen == TextsOf(kept)
      invariant |kept| < CapAsWritten(maxReviews)
    {
      FirstSeenStep(page, i);
      if page[i].Some? {
        var e := page[i].value;
        var stars := ParseStars(e.ariaLabel);
        if e.text !in seen {
          KeepOne(kept, e);
          kept := kept + [e];
          seen := seen + {e.text};
          reviews := reviews + [Review(Some(Strip(e.text)), stars)];
          if |reviews| >= maxReviews {
            i := i + 1;
            CappedPrefix(page, i, CapAsWritten(maxReviews));
            return;
          }
        }
      }
      i := i + 1;
    }
    assert page[..|page|] == page;
    TakeAll(kept, CapAsWritten(maxReviews));
  }

  /** The extraction loop with the cap tested before each element. */
  method ExtractReviews(page: seq<Option<Element>>, maxReviews: int) returns (reviews: seq<Review>)
    ensures reviews == Scraped(page, maxReviews)
  {
    reviews := [];
    var seen: set<string> := {};
    ghost var kept: seq<Element> := [];
    var i := 0;
    while i < |page|
      invariant 0 <= i <= |page|
      invariant kept == FirstSeen(page[..i])
      invariant reviews == ToReviews(kept) && seen == TextsOf(kept)
      invariant |kept| <= (if maxReviews < 0 then 0 else maxReviews)
    {
      if |reviews| >= maxReviews {
        CappedPrefix(page, i, maxReviews);
        return;
      }
      FirstSeenStep(page, i);
      if page[i].Some? {
        var e := page[i].value;
        var stars := ParseStars(e.ariaLabel);
        if e.text !in seen {
          KeepOne(kept, e);
          kept := kept + [e];
          seen := seen + {e.text};
          reviews := reviews + [Review(Some(Strip(e.text)), stars)];
        }
      }
      i := i + 1;
    }
    assert page[..|page|] == page;
    TakeAll(kept, maxReviews);
  }
  /** The reviews a session yields: none when the button is missing or
      something raises, else the extracted reviews of the page. */
  function AllReviews(run: ScrapeRun, maxReviews: int): seq<Review> {
    match run
    case ButtonMissing => []
    case Crashed => []
    case Loaded(page) => Scraped(page, maxReviews)
  }

  /** `get_all_reviews` around `scrape_reviews_tw`. */
  method GetAllReviews(run: ScrapeRun, maxReviews: int) returns (reviews: seq<Review>)
    ensures reviews == AllReviews(run, maxReviews)
    ensures |reviews| <= (if maxReviews < 0 then 0 else maxReviews)
  {
    match run
    case ButtonMissing => reviews := [];
    case Crashed => reviews := [];
    case Loaded(page) => reviews := ExtractReviews(page, maxReviews);
  }

  // ----------------------------------------------------------- properties

  /** Never more reviews than the cap, and a review per distinct readable
      text up to the cap. */
  lemma ScrapedCount(page: seq<Option<Element>>, maxReviews: int)
    ensures |Scraped(page, maxReviews)| == (if maxReviews < 0 then 0 else Min(maxReviews, |FirstSeen(page)|))
  {
  }

  /** A page of one readable element keeps it. */
  lemma FirstSeenOne(e: Element)
    ensures FirstSeen([Some(e)]) == [e]
  {
    assert [Some(e)][..0] == [];
    assert FirstSeen([]) == [] && TextsOf([]) == {};
  }

  /** A page of two readable elements with distinct raw texts keeps both. */
  lemma FirstSeenTwo(a: Element, b: Element)
    requires a.text != b.text
    ensures FirstSeen([Some(a), Some(b)]) == [a, b]
  {
    assert [Some(a), Some(b)][..1] == [Some(a)];
    FirstSeenOne(a);
    assert TextsOf([a]) == {a.text};
  }

  lemma ToReviewsOne(e: Element)
    ensures ToReviews([e]) == [ToReview(e)]
  {
    assert [e][..0] == [];
  }

  lemma ToReviewsTwo(a: Element, b: Element)
    ensures ToReviews([a, b]) == [ToReview(a), ToReview(b)]
  {
    assert [a, b][..1] == [a];
    ToReviewsOne(a);
  }

  /** The loop as written can exceed a cap below 1: with `max_reviews` 0 one
      readable element still yields one review. */
  lemma ZeroCapStillCollectsOne()
    ensures ScrapedAsWritten([Some(Element("好吃", None))], 0) == [Review(Some("好吃"), None)]
    ensures Scraped([Some(Element("好吃", None))], 0) == []
  {
    StripKeepsSampleReview();
    var e := Element("好吃", None);
    FirstSeenOne(e);
    TakeSingle(e, CapAsWritten(0));
    ToReviewsOne(e);
    assert ToReview(e) == Review(Some("好吃"), None);
  }

  /** For every cap of at least 1, which is every cap the agent passes, the
      corrected loop returns what the loop as written returns. */
  lemma CorrectionAgreesFromOne(page: seq<Option<Element>>, maxReviews: int)
    requires maxReviews >= 1
    ensures Scraped(page, maxReviews) == ScrapedAsWritten(page, maxReviews)
  {
  }

  /** The kept elements come from the page, have pairwise distinct raw
      texts, and every readable text of the page is among them. */
  lemma {:induction false} FirstSeenSpec(page: seq<Option<Element>>)
    ensures forall e :: e in FirstSeen(page) ==> Some(e) in page
    ensures forall i, j :: 0 <= i < j < |FirstSeen(page)| ==> FirstSeen(page)[i].text != FirstSeen(page)[j].text
    ensures forall k :: 0 <= k < |page| && page[k].Some? ==> page[k].value.text in TextsOf(FirstSeen(page))
  {
    if page != [] {
      var init := page[..|page| - 1];
      FirstSeenSpec(init);
      var prev := FirstSeen(init);
      assert page == init + [page[|page| - 1]];
      forall i, j | 0 <= i < j < |FirstSeen(page)| ensures FirstSeen(page)[i].text != FirstSeen(page)[j].text {
        if j == |prev| {
          assert FirstSeen(page)[i] in prev;
        }
      }
      forall k | 0 <= k < |page| && page[k].Some? ensures page[k].value.text in TextsOf(FirstSeen(page)) {
        if k < |page| - 1 {
          assert page[k] == init[k];
        }
      }
    }
  }

  /** Duplicates are judged on the raw text: two readable elements with
      different raw texts are both kept, even when they strip alike. */
  lemma DistinctRawTextsBothKept(a: Element, b: Element, maxReviews: int)
    requires a.text != b.text
    requires maxReviews >= 2
    ensures Scraped([Some(a), Some(b)], maxReviews) == [ToReview(a), ToReview(b)]
  {
    FirstSeenTwo(a, b);
    TakePair(a, b, maxReviews);
    ToReviewsTwo(a, b);
  }

  /** So " 好吃" and "好吃" give two reviews that both read "好吃". */
  lemma WhitespaceVariantsBothKept()
    ensures Scraped([Some(Element(" 好吃", None)), Some(Element("好吃", None))], 10)
         == [Review(Some("好吃"), None), Review(Some("好吃"), None)]
  {
    StripKeepsSampleReview();
    StripLeadingSpace(' ', "好吃");
    assert [' '] + "好吃" == " 好吃";
    DistinctRawTextsBothKept(Element(" 好吃", None), Element("好吃", None), 10);
  }

  /** A readable element with an empty text still yields a review, with
      the empty text. */
  lemma EmptyTextKept(e: Element, maxReviews: int)
    requires e.text == ""
    requires maxReviews >= 1
    ensures Scraped([Some(e)], maxReviews) == [Review(Some(""), ParseStars(e.ariaLabel))]
  {
    StripUntouched("");
    FirstSeenOne(e);
    TakeSingle(e, maxReviews);
    ToReviewsOne(e);
  }

  /** Unreadable elements are skipped: dropping them from the page changes
      nothing. */
  lemma {:induction false} UnreadableSkipped(page: seq<Option<Element>>)
    ensures FirstSeen(page + [None]) == FirstSeen(page)
  {
    assert (page + [None])[..|page|] == page;
  }
}
