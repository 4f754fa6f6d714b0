/**
 * scrapper.js: the Playwright scraper used by the API server. The browser is
 * replaced by a `goto` function from URL to rendered document (or a thrown
 * navigation error); everything the scraper then decides is modelled.
 */
module PlaywrightScraper {
  import opened Wrappers
  import opened Strings
  import opened Dom
  import opened Records
  import opened SearchUrls
  import opened Fallback
  import opened Crawl
  import opened BidStore
  import Json

  // ---------------------------------------------------------------------
  // Search results
  // ---------------------------------------------------------------------

  /** The record one `.itemCard` yields, or None when the card is skipped (`if (!url) continue`). */
  function CardListing(card: Node): Option<Listing> {
    var link := Query(card, TitleLink);
    var title := if link.Some? then link.value.text else NoTitle;
    var href := if link.Some? then Attr(link.value, "href") else None;
    if !HasText(href) then None
    else
      var img := Query(card, ThumbnailImage);
      var imgSrc := if img.Some? then FirstNonEmptyAttr(img.value, CardImageAttrs) else None;
      var priceEl := Query(card, PriceTag);
      var price := if priceEl.Some? then priceEl.value.text else PriceNotAvailable;
      Some(Listing(title, price, AbsoluteUrl(href.value),
                   if imgSrc.Some? then [BeforeFirst(imgSrc.value, '?')] else []))
  }

  /**
   * A card yields no record exactly when it has no title link or the link's
   * href is missing or empty. A record's url is absolute; its title is the link
   * text as is (even when empty); its price is the price element's text or the
   * sentinel; its images hold at most one entry, the non-empty `data-src` or
   * else `src` cut at the first '?', so no entry holds '?'.
   */
  lemma CardListingSpec(card: Node)
    ensures var link := Query(card, TitleLink);
      CardListing(card).None? <==> link.None? || !HasText(Attr(link.value, "href"))
    ensures CardListing(card).Some? ==>
      var r := CardListing(card).value;
      var link := Query(card, TitleLink).value;
      && "http" <= r.url
      && r.url == AbsoluteUrl(Attr(link, "href").value)
      && r.title == link.text
      && (Query(card, PriceTag).None? ==> r.price == PriceNotAvailable)
      && (Query(card, PriceTag).Some? ==> r.price == Query(card, PriceTag).value.text)
      && |r.images| <= 1
      && (forall i :: 0 <= i < |r.images| ==> '?' !in r.images[i])
      && (r.images == [] <==> Query(card, ThumbnailImage).None?
                              || FirstNonEmptyAttr(Query(card, ThumbnailImage).value, CardImageAttrs).None?)
    ensures CardListing(card).Some? && Query(card, ThumbnailImage).Some?
            && FirstNonEmptyAttr(Query(card, ThumbnailImage).value, CardImageAttrs).Some?
            ==> CardListing(card).value.images
                == [BeforeFirst(FirstNonEmptyAttr(Query(card, ThumbnailImage).value, CardImageAttrs).value, '?')]
  {
    var link := Query(card, TitleLink);
    if link.Some? && HasText(Attr(link.value, "href")) {
      AbsoluteUrlShape(Attr(link.value, "href").value);
    }
  }

  /** The records of one page, in card order (the `for (const item of items)` loop). */
  function PageListings(cards: seq<Node>): seq<Listing> {
    KeepRead(cards, CardListing)
  }

  /**
   * The body of the card loop: read the title link and its href (skipping the
   * card when the href is empty), make the URL absolute, then read the
   * thumbnail and the price.
   */
  method ReadCard(item: Node) returns (product: Option<Listing>)
    ensures product == CardListing(item)
  {
    var titleElement := Query(item, TitleLink);
    var title := if titleElement.Some? then titleElement.value.text else NoTitle;
    var url := if titleElement.Some? then Attr(titleElement.value, "href") else None;
    if !HasText(url) {
      return None;
    }
    var absolute := url.value;
    if !("http" <= absolute) {
      absolute := BaseUrl + absolute;
    }
    var imgElement := Query(item, ThumbnailImage);
    var imgSrc := if imgElement.Some? then FirstNonEmptyAttr(imgElement.value, CardImageAttrs) else None;
    var priceElement := Query(item, PriceTag);
    var price := if priceElement.Some? then priceElement.value.text else PriceNotAvailable;
    product := Some(Listing(title, price, absolute, if imgSrc.Some? then [BeforeFirst(imgSrc.value, '?')] else []));
  }

  /** The card loop of one page: one record per card that is not skipped, in card order. */
  method ReadCards(items: seq<Node>) returns (records: seq<Listing>)
    ensures records == PageListings(items)
  {
    records := [];
    var j := 0;
    while j < |items|
      invariant 0 <= j <= |items|
      invariant records == KeepRead(items[..j], CardListing)
    {
      assert items[..j + 1] == items[..j] + [items[j]];
      KeepReadSnoc(items[..j], items[j], CardListing);
      var product := ReadCard(items[j]);
      if product.Some? {
        records := records + [product.value];
      }
      j := j + 1;
    }
    assert items[..|items|] == items;
  }

  /**
   * `scrapeSearchResults(term, minPrice, maxPrice, category, totalPages)`:
   * for each page, build its URL, navigate, skip the page when no `.itemCard`
   * appears, and push one record per card that has a title link with an href.
   */
  method ScrapeSearchResults(term: string, minPrice: string, maxPrice: string, category: string,
                             totalPages: int, goto: string -> PageLoad)
    returns (products: seq<Listing>)
    ensures products == SearchResults(term, minPrice, maxPrice, category, totalPages, goto, PageListings)
  {
    var allProducts: seq<Listing> := [];
    var currentPage := 1;
    while currentPage <= totalPages
      invariant 1 <= currentPage <= if totalPages < 1 then 1 else totalPages + 1
      invariant CollectPages(term, minPrice, maxPrice, category, goto, PageListings, currentPage - 1) == Some(allProducts)
    {
      var searchUrl := BuildSearchUrl(term, minPrice, maxPrice, category, currentPage);
      var load := goto(searchUrl);
      if load.NavigationFailed? {
        CollectPagesFailurePersists(term, minPrice, maxPrice, category, goto, PageListings, currentPage, totalPages);
        return [];
      }
      CollectPagesStep(term, minPrice, maxPrice, category, goto, PageListings, currentPage, allProducts);
      var items := QueryAll(load.doc, ItemCard);
      if items == [] {
        currentPage := currentPage + 1;
        continue;
      }
      var records := ReadCards(items);
      allProducts := allProducts + records;
      currentPage := currentPage + 1;
    }
    if totalPages < 1 {
      assert CollectPages(term, minPrice, maxPrice, category, goto, PageListings, totalPages) == Some([]);
    } else {
      assert currentPage - 1 == totalPages;
    }
    assert CollectPages(term, minPrice, maxPrice, category, goto, PageListings, totalPages) == Some(allProducts);
    products := allProducts;
  }

  // ---------------------------------------------------------------------
  // Detail pages
  // ---------------------------------------------------------------------

  const TitleSelectors: seq<string> := ["h1", ".itemName", ".itemInfo__name"]
  const DetailPriceSelectors: seq<string> :=
    [".current_price .price", ".price", ".itemPrice", ".current_price .g-text--attention"]
  const DetailTimeSelectors: seq<string> :=
    [".itemInformation__infoItem .g-text--attention", ".itemInfo__time span", ".timeLeft",
     ".g-text--attention", ".itemInformation .g-text"]
  const ThumbnailSelectors: seq<string> :=
    [".flexslider .slides img", ".flex-control-nav .slides img", ".itemImg img", ".mainImage img",
     ".g-thumbnail__image", ".itemPhoto img", "img.primary-image"]
  /** `el.src || el.getAttribute('data-src') || el.getAttribute('data-original')`. */
  const ThumbnailAttrs: seq<string> := ["src", "data-src", "data-original"]

  /** The title candidates: three selectors, then `document.title`. */
  function TitleCandidates(doc: Node): seq<Option<string>> {
    CandidateTexts(doc, TitleSelectors) + [DocumentTitle]
  }

  /** `thumbnailUrl ? [thumbnailUrl] : []`. */
  function ThumbnailImages(thumb: Option<string>): seq<string> {
    if thumb.Some? && thumb.value != "" then [thumb.value] else []
  }

  /** The object the detail page's `evaluate` returns, at location `location`. */
  function DetailProduct(location: string, doc: Node): Product {
    Product(FirstText(TitleCandidates(doc), NoTitle),
            FirstText(CandidateTexts(doc, DetailPriceSelectors), PriceNotAvailable),
            FirstText(CandidateTexts(doc, DetailTimeSelectors), TimeNotAvailable),
            location,
            ThumbnailImages(ThumbnailFrom(doc, ThumbnailSelectors, ThumbnailAttrs)))
  }

  /**
   * The detail title is decided by the three selectors alone (`document.title`
   * is never chosen); the record keeps at most one image, which holds no '?'.
   */
  lemma DetailProductSpec(location: string, doc: Node)
    ensures DetailProduct(location, doc).title == FirstText(CandidateTexts(doc, TitleSelectors), NoTitle)
    ensures |DetailProduct(location, doc).images| <= 1
    ensures forall i :: 0 <= i < |DetailProduct(location, doc).images| ==> '?' !in DetailProduct(location, doc).images[i]
    ensures DetailProduct(location, doc).url == location
  {
    DocumentTitleNeverChosen(CandidateTexts(doc, TitleSelectors), NoTitle);
  }

  /** The page script of `scrapeDetails`: three text chains and the thumbnail chain. */
  method ExtractDetails(location: string, doc: Node) returns (p: Product)
    ensures p == DetailProduct(location, doc)
  {
    var title := SelectText(TitleCandidates(doc), NoTitle);
    var price := SelectText(CandidateTexts(doc, DetailPriceSelectors), PriceNotAvailable);
    var timeRemaining := SelectText(CandidateTexts(doc, DetailTimeSelectors), TimeNotAvailable);
    var thumbnailUrl := SelectThumbnail(doc, ThumbnailSelectors, ThumbnailAttrs);
    p := Product(title, price, timeRemaining, location, ThumbnailImages(thumbnailUrl));
  }

  /** `scrapeDetails(urls)`: visit each URL in turn, skipping the ones whose page throws. */
  method ScrapeDetails(urls: seq<string>, goto: string -> DetailLoad) returns (detailedProducts: seq<Product>)
    ensures detailedProducts == DetailsFor(urls, goto, DetailProduct)
  {
    detailedProducts := [];
    var i := 0;
    while i < |urls|
      invariant 0 <= i <= |urls|
      invariant detailedProducts == DetailsFor(urls[..i], goto, DetailProduct)
    {
      assert urls[..i + 1][..i] == urls[..i];
      var load := goto(urls[i]);
      if load.DetailLoaded? {
        var productDetails := ExtractDetails(load.location, load.doc);
        detailedProducts := detailedProducts + [productDetails];
      }
      i := i + 1;
    }
    assert urls[..|urls|] == urls;
  }

  // ---------------------------------------------------------------------
  // Bid price refresh
  // ---------------------------------------------------------------------

  const UpdatePriceSelectors: seq<string> := [".current_price .price", ".price", ".itemPrice"]
  const UpdateTimeSelectors: seq<string> :=
    [".itemInformation__infoItem .g-text--attention", ".itemInfo__time span", ".timeLeft", ".g-text--attention"]

  /**
   * `page.locator(sel).textContent()`: locators are strict, so the text is
   * read only when exactly one element matches; otherwise the call throws and
   * the empty `catch {}` moves on to the next selector.
   */
  function LocatorText(doc: Node, selector: string): Option<string> {
    var all := QueryAll(doc, selector);
    if |all| == 1 then Some(all[0].text) else None
  }

  function LocatorTexts(doc: Node, selectors: seq<string>): (ts: seq<Option<string>>)
    ensures |ts| == |selectors|
  {
    seq(|selectors|, i requires 0 <= i < |selectors| => LocatorText(doc, selectors[i]))
  }

  /** A chain's outcome is already trimmed when the sentinel is, so a second `trim()` changes nothing. */
  lemma {:induction false} FirstTextTrimmed(cands: seq<Option<string>>, sentinel: string)
    requires Trim(sentinel) == sentinel
    ensures Trim(FirstText(cands, sentinel)) == FirstText(cands, sentinel)
  {
    if cands != [] {
      if HasText(cands[0]) {
        TrimIdempotent(cands[0].value);
      } else {
        FirstTextTrimmed(cands[1..], sentinel);
      }
    }
  }

  /** The refresh chains' outcomes are already trimmed. */
  lemma UpdateChainsTrimmed(doc: Node)
    ensures var p := FirstText(LocatorTexts(doc, UpdatePriceSelectors), PriceNotAvailable); Trim(p) == p
    ensures var t := FirstText(LocatorTexts(doc, UpdateTimeSelectors), TimeNotAvailable); Trim(t) == t
  {
    SentinelsTrimmed();
    FirstTextTrimmed(LocatorTexts(doc, UpdatePriceSelectors), PriceNotAvailable);
    FirstTextTrimmed(LocatorTexts(doc, UpdateTimeSelectors), TimeNotAvailable);
  }

  lemma SentinelsTrimmed()
    ensures Trim(PriceNotAvailable) == PriceNotAvailable
    ensures Trim(TimeNotAvailable) == TimeNotAvailable
  {
    PriceSentinelTrimmed();
    TimeSentinelTrimmed();
  }

  lemma PriceSentinelTrimmed()
    ensures Trim(PriceNotAvailable) == PriceNotAvailable
  {
    var s := PriceNotAvailable;
    assert s[0] == 'P' && s[|s| - 1] == 'e';
    TrimNoEdge(s);
  }

  lemma TimeSentinelTrimmed()
    ensures Trim(TimeNotAvailable) == TimeNotAvailable
  {
    var s := TimeNotAvailable;
    assert s[0] == 'T' && s[|s| - 1] == 'e';
    TrimNoEdge(s);
  }

  /**
   * `updateBid(productUrl)`: the URL is echoed; the price and time are the
   * outcomes of the locator chains (trimmed once more, which changes nothing),
   * or the navigation error is reported.
   */
  method UpdateBid(productUrl: string, goto: string -> DetailLoad) returns (r: UpdateResult)
    ensures r.productUrl == productUrl
    ensures goto(productUrl).DetailFailed? ==> r == RefreshFailed(productUrl, goto(productUrl).message)
    ensures goto(productUrl).DetailLoaded? ==>
      var doc := goto(productUrl).doc;
      r == Refreshed(productUrl, FirstText(LocatorTexts(doc, UpdatePriceSelectors), PriceNotAvailable),
                     FirstText(LocatorTexts(doc, UpdateTimeSelectors), TimeNotAvailable))
  {
    var load := goto(productUrl);
    if load.DetailFailed? {
      return RefreshFailed(productUrl, load.message);
    }
    var price := SelectText(LocatorTexts(load.doc, UpdatePriceSelectors), PriceNotAvailable);
    var timeRemaining := SelectText(LocatorTexts(load.doc, UpdateTimeSelectors), TimeNotAvailable);
    UpdateChainsTrimmed(load.doc);
    r := Refreshed(productUrl, Trim(price), Trim(timeRemaining));
  }

  // ---------------------------------------------------------------------
  // Bid placement
  // ---------------------------------------------------------------------

  const BidNow: string := "#bidNow"
  const TimestampXPath: string := "//span[contains(@class, \"g-title\")]/following-sibling::span"
  const BidInput: string := "input[name=\"bidYahoo[price]\"]"
  const NoBidButtonMessage: string := "No \"Bid Now\" button found on the page"
  const FailedBidMessage: string := "Failed to place the bid. Please try again."

  /** A loaded page on which `placeBid` gets through to the upsert: one "Bid Now" button, a timestamp, one bid input. */
  predicate BidPlaceable(load: PageLoad) {
    && load.Loaded?
    && |QueryAll(load.doc, BidNow)| == 1
    && QueryAll(load.doc, TimestampXPath) != []
    && |QueryAll(load.doc, BidInput)| == 1
  }

  /** The `bidDetails` record `placeBid` stores for a placeable page. */
  function PlacedRecord(productUrl: string, bidAmount: Json.Value, doc: Node): BidRecord
    requires QueryAll(doc, TimestampXPath) != []
  {
    BidRecord(productUrl, bidAmount, Trim(QueryAll(doc, TimestampXPath)[0].text),
              FirstText(CandidateTexts(doc, TitleSelectors), NoTitle),
              ThumbnailFrom(doc, ThumbnailSelectors, ThumbnailAttrs))
  }

  /** The message of a placed bid, echoing the amount. */
  function PlacedMessage(bidAmount: Json.Value): string {
    "Bid of " + Json.JsString(bidAmount) + " placed successfully"
  }

  /**
   * `placeBid(productUrl, bidAmount)`: without a "Bid Now" button nothing is
   * stored; without the timestamp element, with more than one button or other
   * than one bid input, or with a null amount the call throws;
   * otherwise the bid record is upserted into the bid list and the success
   * message echoes the amount. The page document holds the elements the bid
   * dialog shows once the button is clicked.
   */
  method PlaceBid(productUrl: string, bidAmount: Json.Value, goto: string -> PageLoad, file: BidFile)
    returns (outcome: BidOutcome)
    modifies file
    ensures goto(productUrl).NavigationFailed? ==> outcome == BidError(FailedBidMessage)
    ensures (goto(productUrl).Loaded? && QueryAll(goto(productUrl).doc, BidNow) == [])
              ==> outcome == NoBidButton(NoBidButtonMessage)
    ensures outcome.Placed? <==> BidPlaceable(goto(productUrl)) && !bidAmount.Null? && !bidAmount.Undefined?
    ensures (goto(productUrl).Loaded? && QueryAll(goto(productUrl).doc, BidNow) != [] && !outcome.Placed?)
              ==> outcome == BidError(FailedBidMessage)
    ensures outcome.Placed? ==>
              && outcome.details == PlacedRecord(productUrl, bidAmount, goto(productUrl).doc)
              && outcome.message == PlacedMessage(bidAmount)
    ensures file.bids == if outcome.Placed? then Upserted(old(file.bids), outcome.details) else old(file.bids)
  {
    var load := goto(productUrl);
    if load.NavigationFailed? {
      return BidError(FailedBidMessage);
    }
    var doc := load.doc;
    if QueryAll(doc, BidNow) == [] {
      return NoBidButton(NoBidButtonMessage);
    }
    var title := SelectText(TitleCandidates(doc), NoTitle);
    DocumentTitleNeverChosen(CandidateTexts(doc, TitleSelectors), NoTitle);
    var thumbnailUrl := SelectThumbnail(doc, ThumbnailSelectors, ThumbnailAttrs);
    var spans := QueryAll(doc, TimestampXPath);
    if spans == [] {
      // `.first().textContent()` waits for an element that never appears
      return BidError(FailedBidMessage);
    }
    var timeRemaining := spans[0].text;
    if |QueryAll(doc, BidNow)| != 1 || |QueryAll(doc, BidInput)| != 1 {
      // `click()` and `clear()` are strict: they throw unless exactly one element matches
      return BidError(FailedBidMessage);
    }
    if bidAmount.Null? || bidAmount.Undefined? {
      // `bidAmount.toString()` throws on null and undefined
      return BidError(FailedBidMessage);
    }
    var bidDetails := BidRecord(productUrl, bidAmount, Trim(timeRemaining), title, thumbnailUrl);
    file.Upsert(bidDetails);
    outcome := Placed(PlacedMessage(bidAmount), bidDetails);
  }
}
