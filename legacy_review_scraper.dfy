/** The review scraper of the first version of the agent. It shares the
    page model, the file-name sanitising and the star parsing with the
    recommender's scraper, but judges duplicates on the stripped text and
    drops reviews whose text is empty once stripped. */
module LegacyReviewScraper {
  import opened Wrappers
  import opened Text
  import opened Records
  import opened Sorting
  import opened ReviewScraper

  /** The default cap of `scrape_reviews_tw` and `get_all_reviews`. */
  const DefaultMaxReviews: int := 100

  /** The stripped texts of some elements. */
  function StrippedOf(es: seq<Element>): set<string> {
    set e | e in es :: Strip(e.text)
  }

  /** A stored text that is present, not empty, and neither starts nor
      ends with white space. */
  predicate CleanText(t: Option<string>) {
    t.Some? && t.value != "" && !IsSpace(t.value[0]) && !IsSpace(t.value[|t.value| - 1])
  }

  /** Whether the stripped text of an element is worth keeping. */
  predicate Substantial(e: Element) {
    Strip(e.text) != ""
  }

  /** The elements that get past the test: in page order, every readable
      element whose stripped text is not empty and was not kept before. */
  function KeptOf(page: seq<Option<Element>>): seq<Element> {
    if page == [] then []
    else
      var prev := KeptOf(page[..|page| - 1]);
      var last := page[|page| - 1];
      if last.Some? && Substantial(last.value) && Strip(last.value.text) !in StrippedOf(prev)
      then prev + [last.value] else prev
  }

  /** What the extraction loop as written returns. */
  function ScrapedAsWritten(page: seq<Option<Element>>, maxReviews: int): seq<Review> {
    ToReviews(Take(KeptOf(page), CapAsWritten(maxReviews)))
  }

  /** What the extraction loop returns with the cap tested before each element. */
  function Scraped(page: seq<Option<Element>>, maxReviews: int): seq<Review> {
    ToReviews(Take(KeptOf(page), maxReviews))
  }

  lemma {:induction false} KeptOfIsPrefixClosed(page: seq<Option<Element>>, k: nat)
    requires k <= |page|
    ensures |KeptOf(page[..k])| <= |KeptOf(page)|
    ensures KeptOf(page[..k]) == KeptOf(page)[..|KeptOf(page[..k])|]
    decreases |page|
  {
    if k < |page| {
      var init := page[..|page| - 1];
      KeptOfIsPrefixClosed(init, k);
      assert init[..k] == page[..k];
    } else {
      assert page[..k] == page;
    }
  }

  lemma KeptOfStep(page: seq<Option<Element>>, i: nat)
    requires i < |page|
    ensures KeptOf(page[..i + 1])
         == if page[i].Some? && Substantial(page[i].value) && Strip(page[i].value.text) !in StrippedOf(KeptOf(page[..i]))
            then KeptOf(page[..i]) + [page[i].value] else KeptOf(page[..i])
  {
    assert page[..i + 1][..i] == page[..i];
  }

  lemma KeptOfSnoc(page: seq<Option<Element>>, x: Option<Element>)
    ensures KeptOf(page + [x])
         == if x.Some? && Substantial(x.value) && Strip(x.value.text) !in StrippedOf(KeptOf(page))
            then KeptOf(page) + [x.value] else KeptOf(page)
  {
    assert (page + [x])[..|page|] == page;
  }

  lemma CappedPrefix(page: seq<Option<Element>>, k: nat, cap: int)
    requires k <= |page|
    requires |KeptOf(page[..k])| == (if cap < 0 then 0 else cap)
    ensures KeptOf(page[..k]) == Take(KeptOf(page), cap)
  {
    KeptOfIsPrefixClosed(page, k);
  }

  lemma KeepOne(kept: seq<Element>, e: Element)
    ensures StrippedOf(kept + [e]) == StrippedOf(kept) + {Strip(e.text)}
    ensures ToReviews(kept + [e]) == ToReviews(kept) + [ToReview(e)]
  {
    assert (kept + [e])[..|kept|] == kept;
  }

  /** The element at `i` passes the test: it is appended to the kept ones,
      its stripped text to the seen ones, and its record to the reviews. */
  lemma KeepStep(page: seq<Option<Element>>, i: nat, kept: seq<Element>)
    requires i < |page| && kept == KeptOf(page[..i])
    requires page[i].Some? && Strip(page[i].value.text) != ""
    requires Strip(page[i].value.text) !in StrippedOf(kept)
    ensures KeptOf(page[..i + 1]) == kept + [page[i].value]
    ensures StrippedOf(kept + [page[i].value]) == StrippedOf(kept) + {Strip(page[i].value.text)}
    ensures ToReviews(kept + [page[i].value])
         == ToReviews(kept) + [Review(Some(Strip(page[i].value.text)), ParseStars(page[i].value.ariaLabel))]
  {
    KeptOfStep(page, i);
    KeepOne(kept, page[i].value);
  }

  /** The element at `i` fails the test and changes nothing. */
  lemma SkipStep(page: seq<Option<Element>>, i: nat, kept: seq<Element>)
    requires i < |page| && kept == KeptOf(page[..i])
    requires page[i].None? || Strip(page[i].value.text) == "" || Strip(page[i].value.text) in StrippedOf(kept)
    ensures KeptOf(page[..i + 1]) == kept
  {
    KeptOfStep(page, i);
  }

  /** The loop as written stops once it holds `CapAsWritten(maxReviews)`
      reviews, or at the end of the page with fewer. */
  lemma StopAsWritten(page: seq<Option<Element>>, k: nat, maxReviews: int)
    requires k <= |page|
    requires |KeptOf(page[..k])| == CapAsWritten(maxReviews) || k == |page|
    requires |KeptOf(page[..k])| <= CapAsWritten(maxReviews)
    ensures ToReviews(KeptOf(page[..k])) == ScrapedAsWritten(page, maxReviews)
  {
    if |KeptOf(page[..k])| == CapAsWritten(maxReviews) {
      CappedPrefix(page, k, CapAsWritten(maxReviews));
    } else {
      assert page[..k] == page;
      TakeAll(KeptOf(page), CapAsWritten(maxReviews));
    }
  }

  /** The extraction loop of the first version's `scrape_reviews_tw` as
      written: the cap is tested after each append. */
  method ExtractReviewsAsWritten(page: seq<Option<Element>>, maxReviews: int) returns (reviews: seq<Review>)
    ensures reviews == ScrapedAsWritten(page, maxReviews)
  {
    reviews := [];
    var seen: set<string> := {};
    ghost var kept: seq<Element> := [];
    var i := 0;
    while i < |page|
      invariant 0 <= i <= |page|
      invariant kept == KeptOf(page[..i])
      invariant reviews == ToReviews(kept) && seen == StrippedOf(kept)
      invariant |kept| < CapAsWritten(maxReviews)
    {
      if page[i].Some? {
        var e := page[i].value;
        var stars := ParseStars(e.ariaLabel);
        var txt := Strip(e.text);
        if txt != "" && txt !in seen {
          KeepStep(page, i, kept);
          kept := kept + [e];
          seen := seen + {txt};
          reviews := reviews + [Review(Some(txt), stars)];
          if |reviews| >= maxReviews {
            StopAsWritten(page, i + 1, maxReviews);
            return;
          }
        } else {
          SkipStep(page, i, kept);
        }
      } else {
        SkipStep(page, i, kept);
      }
      i := i + 1;
    }
    StopAsWritten(page, i, maxReviews);
  }

  /** The extraction loop with the cap tested before each element. */
  method ExtractReviews(page: seq<Option<Element>>, maxReviews: int) returns (reviews: seq<Review>)
    ensures reviews == Scraped(page, maxReviews)
  {
    reviews := [];
    var seen: set<string> := {};
    ghost var kept: seq<Element> := [];
    var i := 0;
    while i < |page|
      invariant 0 <= i <= |page|
      invariant kept == KeptOf(page[..i])
      invariant reviews == ToReviews(kept) && seen == StrippedOf(kept)
      invariant |kept| <= (if maxReviews < 0 then 0 else maxReviews)
    {
      if |reviews| >= maxReviews {
        CappedPrefix(page, i, maxReviews);
        return;
      }
      if page[i].Some? {
        var e := page[i].value;
        var stars := ParseStars(e.ariaLabel);
        var txt := Strip(e.text);
        if txt != "" && txt !in seen {
          KeepStep(page, i, kept);
          kept := kept + [e];
          seen := seen + {txt};
          reviews := reviews + [Review(Some(txt), stars)];
        } else {
          SkipStep(page, i, kept);
        }
      } else {
        SkipStep(page, i, kept);
      }
      i := i + 1;
    }
    assert page[..|page|] == page;
    TakeAll(kept, maxReviews);
  }

  /** The reviews a session yields: none when the button is missing or
      something raises, else the extracted reviews of the page. */
  function AllReviews(run: ScrapeRun, maxReviews: int): seq<Review> {
    match run
    case ButtonMissing => []
    case Crashed => []
    case Loaded(page) => Scraped(page, maxReviews)
  }

  /** The first version's `get_all_reviews` around `scrape_reviews_tw`. */
  method GetAllReviews(run: ScrapeRun, maxReviews: int) returns (reviews: seq<Review>)
    ensures reviews == AllReviews(run, maxReviews)
    ensures |reviews| <= (if maxReviews < 0 then 0 else maxReviews)
  {
    match run
    case ButtonMissing => reviews := [];
    case Crashed => reviews := [];
    case Loaded(page) => reviews := ExtractReviews(page, maxReviews);
  }

  // ----------------------------------------------------------- properties

  /** Every kept element comes from the page and has a non-empty stripped text. */
  lemma {:induction false} KeptOfFromPage(page: seq<Option<Element>>)
    ensures forall e :: e in KeptOf(page) ==> Some(e) in page && Substantial(e)
  {
    if page != [] {
      var init := page[..|page| - 1];
      KeptOfFromPage(init);
      assert page == init + [page[|page| - 1]];
    }
  }

  /** No two kept elements share a stripped text. */
  lemma {:induction false} KeptOfDistinct(page: seq<Option<Element>>)
    ensures forall i, j :: 0 <= i < j < |KeptOf(page)| ==> Strip(KeptOf(page)[i].text) != Strip(KeptOf(page)[j].text)
  {
    if page != [] {
      var init := page[..|page| - 1];
      KeptOfDistinct(init);
      var prev := KeptOf(init);
      var all := KeptOf(page);
      forall i, j | 0 <= i < j < |all| ensures Strip(all[i].text) != Strip(all[j].text) {
        if j == |prev| {
          assert all[i] == prev[i];
          assert Strip(all[i].text) in StrippedOf(prev);
        } else {
          assert all[i] == prev[i] && all[j] == prev[j];
        }
      }
    }
  }

  /** Every readable element with a non-empty stripped text has its
      stripped text among the kept ones. */
  lemma {:induction false} KeptOfComplete(page: seq<Option<Element>>)
    ensures forall k :: 0 <= k < |page| && page[k].Some? && Substantial(page[k].value)
                        ==> Strip(page[k].value.text) in StrippedOf(KeptOf(page))
  {
    if page != [] {
      var init := page[..|page| - 1];
      KeptOfComplete(init);
      var prev := KeptOf(init);
      assert StrippedOf(prev) <= StrippedOf(KeptOf(page));
      forall k | 0 <= k < |page| && page[k].Some? && Substantial(page[k].value)
        ensures Strip(page[k].value.text) in StrippedOf(KeptOf(page))
      {
        if k < |page| - 1 {
          assert page[k] == init[k];
        }
      }
    }
  }

  /** The review at position `m` is that of the kept element at `m`. */
  lemma ScrapedAt(page: seq<Option<Element>>, maxReviews: int, m: int)
    requires 0 <= m < |Scraped(page, maxReviews)|
    ensures m < |KeptOf(page)| && Scraped(page, maxReviews)[m] == ToReview(KeptOf(page)[m])
  {
    var kept := Take(KeptOf(page), maxReviews);
    ToReviewsAt(kept, m);
  }

  /** The record of an element with a non-empty stripped text holds that
      text, which neither starts nor ends with white space. */
  lemma SubstantialIsClean(e: Element)
    requires Substantial(e)
    ensures CleanText(ToReview(e).text)
  {
    StripSpec(e.text);
  }

  /** The stored texts are stripped, not empty and pairwise distinct. */
  lemma StoredTextsAreCleanAndDistinct(page: seq<Option<Element>>, maxReviews: int)
    ensures forall r :: r in Scraped(page, maxReviews) ==> CleanText(r.text)
    ensures forall i, j :: 0 <= i < j < |Scraped(page, maxReviews)| ==>
      Scraped(page, maxReviews)[i].text != Scraped(page, maxReviews)[j].text
  {
    KeptOfFromPage(page);
    KeptOfDistinct(page);
    var out := Scraped(page, maxReviews);
    forall r | r in out ensures CleanText(r.text) {
      var m :| 0 <= m < |out| && out[m] == r;
      ScrapedAt(page, maxReviews, m);
      assert KeptOf(page)[m] in KeptOf(page);
      SubstantialIsClean(KeptOf(page)[m]);
    }
    forall i, j | 0 <= i < j < |out| ensures out[i].text != out[j].text {
      ScrapedAt(page, maxReviews, i);
      ScrapedAt(page, maxReviews, j);
    }
  }

  /** Texts that differ only in surrounding white space count as one
      review (the first one's), and a white-space-only text is dropped. */
  lemma WhitespaceVariantsMerged(a: Element, b: Element, c: Element, maxReviews: int)
    requires Strip(a.text) == Strip(b.text) != ""
    requires Strip(c.text) == ""
    requires maxReviews >= 1
    ensures Scraped([Some(a), Some(b), Some(c)], maxReviews) == [ToReview(a)]
  {
    var p1 := [Some(a)];
    var p2 := p1 + [Some(b)];
    var p3 := p2 + [Some(c)];
    Snoc3(Some(a), Some(b), Some(c));
    KeptOfSnoc([], Some(a));
    assert [] + [Some(a)] == p1;
    assert KeptOf(p1) == [a];
    KeepOne([], a);
    assert [] + [a] == [a];
    KeptOfSnoc(p1, Some(b));
    KeptOfSnoc(p2, Some(c));
    assert KeptOf(p3) == [a];
    TakeSingle(a, maxReviews);
  }

  /** One instance: " 好吃", "好吃" and " " yield the single review "好吃". */
  lemma WhitespaceVariantsExample()
    ensures Scraped([Some(Element(" 好吃", None)), Some(Element("好吃", None)), Some(Element(" ", None))], 10)
         == [Review(Some("好吃"), None)]
  {
    StripKeepsSampleReview();
    StripLeadingSpace(' ', "好吃");
    assert [' '] + "好吃" == " 好吃";
    StripLeadingSpace(' ', "");
    assert [' '] + "" == " ";
    StripUntouched("");
    WhitespaceVariantsMerged(Element(" 好吃", None), Element("好吃", None), Element(" ", None), 10);
  }

  /** A page of one readable element with a non-empty stripped text keeps it. */
  lemma OneSubstantial(e: Element)
    requires Substantial(e)
    ensures KeptOf([Some(e)]) == [e]
    ensures ToReviews([e]) == [ToReview(e)]
  {
    KeptOfSnoc([], Some(e));
    assert [] + [Some(e)] == [Some(e)];
    assert StrippedOf([]) == {};
    KeepOne([], e);
    assert [] + [e] == [e];
  }

  /** The loop as written can exceed a cap below 1. */
  lemma ZeroCapStillCollectsOne()
    ensures ScrapedAsWritten([Some(Element("好吃", None))], 0) == [Review(Some("好吃"), None)]
    ensures Scraped([Some(Element("好吃", None))], 0) == []
  {
    var e := Element("好吃", None);
    StripKeepsSampleReview();
    assert Substantial(e);
    OneSubstantial(e);
    TakeSingle(e, CapAsWritten(0));
    assert ToReview(e) == Review(Some("好吃"), None);
  }

  /** From a cap of 1 up, the corrected loop agrees with the loop as written. */
  lemma CorrectionAgreesFromOne(page: seq<Option<Element>>, maxReviews: int)
    requires maxReviews >= 1
    ensures Scraped(page, maxReviews) == ScrapedAsWritten(page, maxReviews)
  {
  }
}
