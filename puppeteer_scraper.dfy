/**
 * express_backend/scrapper.js: the Puppeteer variant of the scraper. It walks
 * the same pages as the Playwright one but reads each page inside one page
 * script, with its own fallbacks.
 */
module PuppeteerScraper {
  import opened Wrappers
  import opened Strings
  import opened Dom
  import opened Records
  import opened SearchUrls
  import opened Fallback
  import opened Crawl
  import opened BidStore
  import Json
  import PlaywrightScraper

  /** JavaScript's `s || fallback` on a string. */
  function OrDefault(s: string, fallback: string): (r: string)
    ensures r == s || r == fallback
    ensures r == fallback <==> s == "" || s == fallback
  {
    if s != "" then s else fallback
  }

  // ---------------------------------------------------------------------
  // Search results
  // ---------------------------------------------------------------------

  /**
   * The object the page script maps one card to. `titleEl?.href || null` is
   * the link's href, with "" standing for null; a non-empty relative href is
   * prefixed with the site origin.
   */
  function CardObject(card: Node): Listing {
    var link := Query(card, TitleLink);
    var href := if link.Some? then Attr(link.value, "href").GetOr("") else "";
    var img := Query(card, ThumbnailImage);
    var priceEl := Query(card, PriceTag);
    Listing(OrDefault(if link.Some? then Trim(link.value.text) else "", NoTitle),
            OrDefault(if priceEl.Some? then Trim(priceEl.value.text) else "", PriceNotAvailable),
            if href == "" then "" else AbsoluteUrl(href),
            if img.Some? then [BeforeFirst(FirstNonEmptyAttr(img.value, CardImageAttrs).GetOr(""), '?')] else [])
  }

  /** `Array.from(document.querySelectorAll('.itemCard')).map(...)`. */
  function MapCards(cards: seq<Node>): (objs: seq<Listing>)
    ensures |objs| == |cards|
  {
    seq(|cards|, i requires 0 <= i < |cards| => CardObject(cards[i]))
  }

  /** `.filter(item => item.url)`. */
  function WithUrl(objs: seq<Listing>): seq<Listing> {
    if objs == [] then []
    else WithUrl(objs[..|objs| - 1]) + (if objs[|objs| - 1].url != "" then [objs[|objs| - 1]] else [])
  }

  /** The records one page yields. */
  function PageItems(cards: seq<Node>): seq<Listing> {
    WithUrl(MapCards(cards))
  }

  /** A card's record, when the filter keeps it. */
  function CardRecord(card: Node): Option<Listing> {
    if CardObject(card).url != "" then Some(CardObject(card)) else None
  }

  /** Mapping every card and then filtering is the same as reading the cards one by one and skipping those without a URL. */
  lemma {:induction false} PageItemsAsCardLoop(cards: seq<Node>)
    ensures PageItems(cards) == KeepRead(cards, CardRecord)
  {
    if cards != [] {
      var n := |cards| - 1;
      assert MapCards(cards)[..n] == MapCards(cards[..n]);
      PageItemsAsCardLoop(cards[..n]);
    }
  }

  /** A card yields a record exactly when its title link has a non-empty href; the url is that href made absolute. */
  lemma CardRecordKept(card: Node)
    ensures var link := Query(card, TitleLink);
      CardRecord(card).Some? <==> link.Some? && HasText(Attr(link.value, "href"))
    ensures CardRecord(card).Some? ==>
      var r := CardRecord(card).value;
      var link := Query(card, TitleLink).value;
      "http" <= r.url && r.url == AbsoluteUrl(Attr(link, "href").value)
  {
    var link := Query(card, TitleLink);
    if link.Some? && Attr(link.value, "href").Some? && Attr(link.value, "href").value != "" {
      AbsoluteUrlShape(Attr(link.value, "href").value);
    }
  }

  /**
   * A card's title and price are its trimmed texts when these are non-empty
   * and the sentinels otherwise; an image element contributes exactly one
   * entry, its first non-empty of `data-src` and `src` ("" when neither is
   * set) cut at the first '?', and a card without one has no images.
   */
  lemma CardObjectFields(card: Node)
    ensures var r := CardObject(card);
      var link := Query(card, TitleLink);
      var priceEl := Query(card, PriceTag);
      var img := Query(card, ThumbnailImage);
      && (link.Some? && Trim(link.value.text) != "" ==> r.title == Trim(link.value.text))
      && (link.None? || Trim(link.value.text) == "" ==> r.title == NoTitle)
      && (priceEl.Some? && Trim(priceEl.value.text) != "" ==> r.price == Trim(priceEl.value.text))
      && (priceEl.None? || Trim(priceEl.value.text) == "" ==> r.price == PriceNotAvailable)
      && (img.Some? ==> r.images == [BeforeFirst(FirstNonEmptyAttr(img.value, CardImageAttrs).GetOr(""), '?')])
      && (img.None? ==> r.images == [])
      && (forall i :: 0 <= i < |r.images| ==> '?' !in r.images[i])
  {
  }

  /**
   * Both scrapers keep the same cards: a card yields a record here exactly
   * when it yields one in the Playwright scraper, with the same URL.
   */
  lemma SameCardKept(card: Node)
    ensures CardRecord(card).Some? <==> PlaywrightScraper.CardListing(card).Some?
    ensures CardRecord(card).Some? ==> CardRecord(card).value.url == PlaywrightScraper.CardListing(card).value.url
  {
    CardRecordKept(card);
    PlaywrightScraper.CardListingSpec(card);
  }

  /** On any page both scrapers yield records for the same listings, in the same order. */
  lemma SamePageUrls(cards: seq<Node>)
    ensures |PageItems(cards)| == |PlaywrightScraper.PageListings(cards)|
    ensures forall j :: 0 <= j < |PageItems(cards)| ==> PageItems(cards)[j].url == PlaywrightScraper.PageListings(cards)[j].url
  {
    PageItemsAsCardLoop(cards);
    forall i | 0 <= i < |cards|
      ensures CardRecord(cards[i]).Some? <==> PlaywrightScraper.CardListing(cards[i]).Some?
      ensures CardRecord(cards[i]).Some? ==> CardRecord(cards[i]).value.url == PlaywrightScraper.CardListing(cards[i]).value.url
    {
      SameCardKept(cards[i]);
    }
    KeepReadSameUrls(cards, CardRecord, PlaywrightScraper.CardListing);
  }

  /**
   * `scrapeSearchResults(term, minPrice, maxPrice, category, totalPages)`:
   * the shared page loop, with the page script reading each page's cards.
   */
  method ScrapeSearchResults(term: string, minPrice: string, maxPrice: string, category: string,
                             totalPages: int, goto: string -> PageLoad)
    returns (products: seq<Listing>)
    ensures products == SearchResults(term, minPrice, maxPrice, category, totalPages, goto, PageItems)
  {
    products := VisitSearchPages(term, minPrice, maxPrice, category, totalPages, goto, PageItems);
  }

  // ---------------------------------------------------------------------
  // Detail pages
  // ---------------------------------------------------------------------

  const TitleSelectors: seq<string> := ["h1", ".itemName", ".itemInfo__name"]
  const DetailPriceSelectors: seq<string> :=
    [".current_price .price", ".price", ".itemPrice", ".current_price .g-text--attention"]
  const DetailTimeSelectors: seq<string> :=
    [".itemInformation__infoItem .g-text--attention", ".itemInfo__time span", ".timeLeft"]
  const ThumbnailSelectors: seq<string> :=
    [".flexslider .slides img", ".itemImg img", ".mainImage img", ".g-thumbnail__image"]
  /** `el.src || el.dataset.src || el.dataset.original`. */
  const ThumbnailAttrs: seq<string> := ["src", "data-src", "data-original"]

  /** The object the detail page script returns, at location `location`. */
  function DetailProduct(location: string, doc: Node): Product {
    var thumb := ThumbnailFrom(doc, ThumbnailSelectors, ThumbnailAttrs);
    Product(FirstText(CandidateTexts(doc, TitleSelectors) + [DocumentTitle], NoTitle),
            FirstText(CandidateTexts(doc, DetailPriceSelectors), PriceNotAvailable),
            FirstText(CandidateTexts(doc, DetailTimeSelectors), TimeNotAvailable),
            location,
            PlaywrightScraper.ThumbnailImages(thumb))
  }

  /** The title and price chains are the Playwright chains, so both scrapers agree on them. */
  lemma DetailTitlePriceAgree(location: string, doc: Node)
    ensures DetailProduct(location, doc).title == PlaywrightScraper.DetailProduct(location, doc).title
    ensures DetailProduct(location, doc).price == PlaywrightScraper.DetailProduct(location, doc).price
  {
    assert TitleSelectors == PlaywrightScraper.TitleSelectors;
    assert DetailPriceSelectors == PlaywrightScraper.DetailPriceSelectors;
  }

  /**
   * The time chain is the first three selectors of the Playwright chain: where
   * one of those offers a text, both scrapers report the same time.
   */
  lemma DetailTimeAgree(location: string, doc: Node)
    ensures HasText(CandidateTexts(doc, DetailTimeSelectors)[0])
            || HasText(CandidateTexts(doc, DetailTimeSelectors)[1])
            || HasText(CandidateTexts(doc, DetailTimeSelectors)[2])
            ==> DetailProduct(location, doc).timeRemaining == PlaywrightScraper.DetailProduct(location, doc).timeRemaining
  {
    var mine := CandidateTexts(doc, DetailTimeSelectors);
    var extra := PlaywrightScraper.DetailTimeSelectors[3..];
    assert PlaywrightScraper.DetailTimeSelectors == DetailTimeSelectors + extra;
    CandidateTextsAppend(doc, DetailTimeSelectors, extra);
    if HasText(mine[0]) || HasText(mine[1]) || HasText(mine[2]) {
      var k := if HasText(mine[0]) then 0 else if HasText(mine[1]) then 1 else 2;
      FirstTextPrefix(mine, CandidateTexts(doc, extra), TimeNotAvailable, k);
    }
  }

  /** The record keeps at most one image, which holds no '?', and its url is the page location. */
  lemma DetailImagesSpec(location: string, doc: Node)
    ensures |DetailProduct(location, doc).images| <= 1
    ensures forall i :: 0 <= i < |DetailProduct(location, doc).images| ==> '?' !in DetailProduct(location, doc).images[i]
    ensures DetailProduct(location, doc).url == location
  {
  }

  method ExtractDetails(location: string, doc: Node) returns (p: Product)
    ensures p == DetailProduct(location, doc)
  {
    var title := SelectText(CandidateTexts(doc, TitleSelectors) + [DocumentTitle], NoTitle);
    var price := SelectText(CandidateTexts(doc, DetailPriceSelectors), PriceNotAvailable);
    var timeRemaining := SelectText(CandidateTexts(doc, DetailTimeSelectors), TimeNotAvailable);
    var thumbnailUrl := SelectThumbnail(doc, ThumbnailSelectors, ThumbnailAttrs);
    p := Product(title, price, timeRemaining, location,
                 PlaywrightScraper.ThumbnailImages(thumbnailUrl));
  }

  /** `scrapeDetails(urls)`: visit each URL in turn, skipping the ones whose page throws. */
  method ScrapeDetails(urls: seq<string>, goto: string -> DetailLoad) returns (detailedProducts: seq<Product>)
    ensures detailedProducts == DetailsFor(urls, goto, DetailProduct)
  {
    detailedProducts := [];
    for i := 0 to |urls|
      invariant detailedProducts == DetailsFor(urls[..i], goto, DetailProduct)
    {
      assert urls[..i + 1][..i] == urls[..i];
      var load := goto(urls[i]);
      if load.DetailLoaded? {
        var productDetails := ExtractDetails(load.location, load.doc);
        detailedProducts := detailedProducts + [productDetails];
      }
    }
    assert urls[..|urls|] == urls;
  }

  // ---------------------------------------------------------------------
  // Bid price refresh
  // ---------------------------------------------------------------------

  const UpdatePriceSelectors: seq<string> := [".current_price .price", ".price", ".itemPrice"]
  const UpdateTimeSelectors: seq<string> :=
    [".itemInformation__infoItem .g-text--attention", ".itemInfo__time span", ".timeLeft"]

  /**
   * `updateBid(productUrl)`: the URL is echoed, with the price and time the
   * page script's chains choose, or the navigation error is reported.
   */
  method UpdateBid(productUrl: string, goto: string -> DetailLoad) returns (r: UpdateResult)
    ensures r.productUrl == productUrl
    ensures goto(productUrl).DetailFailed? ==> r == RefreshFailed(productUrl, goto(productUrl).message)
    ensures goto(productUrl).DetailLoaded? ==>
      var doc := goto(productUrl).doc;
      r == Refreshed(productUrl, FirstText(CandidateTexts(doc, UpdatePriceSelectors), PriceNotAvailable),
                     FirstText(CandidateTexts(doc, UpdateTimeSelectors), TimeNotAvailable))
  {
    var load := goto(productUrl);
    if load.DetailFailed? {
      return RefreshFailed(productUrl, load.message);
    }
    var price := SelectText(CandidateTexts(load.doc, UpdatePriceSelectors), PriceNotAvailable);
    var timeRemaining := SelectText(CandidateTexts(load.doc, UpdateTimeSelectors), TimeNotAvailable);
    r := Refreshed(productUrl, price, timeRemaining);
  }

  // ---------------------------------------------------------------------
  // Bid placement
  // ---------------------------------------------------------------------

  const BidNow: string := "#bidNow"
  const BidTimeSelector: string := ".itemInfo__time span"
  const BidInput: string := "input[name=\"bidYahoo[price]\"]"
  const BidThumbnailSelectors: seq<string> := [".flexslider .slides img", ".itemImg img", ".mainImage img"]
  /** `el.src || el.dataset.src`. */
  const BidThumbnailAttrs: seq<string> := ["src", "data-src"]
  const NoBidButtonMessage: string := "No \"Bid Now\" button found"
  const FailedBidMessage: string := "Failed to place the bid. Please try again."

  /**
   * `placeBid(productUrl, bidAmount)`: without a "Bid Now" button nothing is
   * stored; without the bid input or with a null amount the call throws;
   * otherwise the bid record, whose timestamp is the trimmed
   * `.itemInfo__time span` text or the sentinel, is upserted into the bid list.
   */
  method PlaceBid(productUrl: string, bidAmount: Json.Value, goto: string -> PageLoad, file: BidFile)
    returns (outcome: BidOutcome)
    modifies file
    ensures goto(productUrl).NavigationFailed? ==> outcome == BidError(FailedBidMessage)
    ensures (goto(productUrl).Loaded? && Query(goto(productUrl).doc, BidNow).None?)
              ==> outcome == NoBidButton(NoBidButtonMessage)
    ensures outcome.Placed? <==>
              && goto(productUrl).Loaded?
              && Query(goto(productUrl).doc, BidNow).Some?
              && Query(goto(productUrl).doc, BidInput).Some?
              && !bidAmount.Null? && !bidAmount.Undefined?
    ensures (goto(productUrl).Loaded? && Query(goto(productUrl).doc, BidNow).Some? && !outcome.Placed?)
              ==> outcome == BidError(FailedBidMessage)
    ensures outcome.Placed? ==>
              var doc := goto(productUrl).doc;
              && outcome.details
                 == BidRecord(productUrl, bidAmount,
                              Trim(OrDefault(TextOf(Query(doc, BidTimeSelector)).GetOr(""), TimeNotAvailable)),
                              FirstText(CandidateTexts(doc, TitleSelectors), NoTitle),
                              ThumbnailFrom(doc, BidThumbnailSelectors, BidThumbnailAttrs))
              && outcome.message == "Bid of " + Json.JsString(bidAmount) + " placed successfully"
    ensures file.bids == if outcome.Placed? then Upserted(old(file.bids), outcome.details) else old(file.bids)
  {
    var load := goto(productUrl);
    if load.NavigationFailed? {
      return BidError(FailedBidMessage);
    }
    var doc := load.doc;
    var bidButton := Query(doc, BidNow);
    if bidButton.None? {
      return NoBidButton(NoBidButtonMessage);
    }
    var title := SelectText(CandidateTexts(doc, TitleSelectors), NoTitle);
    var thumbnailUrl := SelectThumbnail(doc, BidThumbnailSelectors, BidThumbnailAttrs);
    var timeRemaining := OrDefault(TextOf(Query(doc, BidTimeSelector)).GetOr(""), TimeNotAvailable);
    var bidInput := Query(doc, BidInput);
    if bidInput.None? {
      // `bidInput.click(...)` on null throws
      return BidError(FailedBidMessage);
    }
    if bidAmount.Null? || bidAmount.Undefined? {
      // `bidAmount.toString()` throws on null and undefined
      return BidError(FailedBidMessage);
    }
    var bidDetails := BidRecord(productUrl, bidAmount, Trim(timeRemaining), title, thumbnailUrl);
    file.Upsert(bidDetails);
    outcome := Placed("Bid of " + Json.JsString(bidAmount) + " placed successfully", bidDetails);
  }
}
