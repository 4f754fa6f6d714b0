/**
 * backend/scraper/buyee_scraper.py: the synchronous Python scraper behind the
 * Flask backend. The first page decides how many pages there are; every page
 * is then visited, but the item loop runs after the page loop, so only the
 * cards of the last page visited become records. Each record can be enriched
 * with the images of its detail page.
 */
module PyScraper {
  import opened Wrappers
  import opened Strings
  import opened Dom
  import opened Records
  import opened SearchUrls
  import opened Crawl

  const Pagination: string := ".pagination"
  const PageLink: string := "a"
  const AttentionText: string := ".g-text--attention"
  /** The only detail-page image selector. */
  const DetailImage: string := "a.js-smartPhoto img"
  /** `href or data-src or data-thumb or src`. */
  const DetailImageAttrs: seq<string> := ["href", "data-src", "data-thumb", "src"]
  /** The size suffix the thumbnail code strips after the cut at '?'. */
  const SizeSuffix: string := "?pri=l&w=300&h=300"

  // ---------------------------------------------------------------------
  // Page count
  // ---------------------------------------------------------------------

  /** `text.isdigit()` for ASCII text: non-empty and all digits. */
  predicate IsDecimal(t: string) {
    t != [] && AllDigits(t)
  }

  /** `[int(link.inner_text()) for link in page_links if link.inner_text().isdigit()]`. */
  function PageNumbers(links: seq<Node>): (ns: seq<nat>)
    ensures |ns| <= |links|
    ensures forall i :: 0 <= i < |ns| ==> exists j :: 0 <= j < |links| && IsDecimal(links[j].text) && ns[i] == DecimalValue(links[j].text)
    ensures forall j :: 0 <= j < |links| && IsDecimal(links[j].text) ==> DecimalValue(links[j].text) in ns
  {
    if links == [] then []
    else if IsDecimal(links[0].text) then [DecimalValue(links[0].text)] + PageNumbers(links[1..])
    else PageNumbers(links[1..])
  }

  /** `max(page_numbers)`. */
  function MaxOf(ns: seq<nat>): (m: nat)
    requires ns != []
    ensures m in ns
    ensures forall i :: 0 <= i < |ns| ==> ns[i] <= m
  {
    if |ns| == 1 then ns[0]
    else var rest := MaxOf(ns[1..]); if ns[0] >= rest then ns[0] else rest
  }

  /**
   * The number of pages the first result page advertises: the largest
   * all-digit link text inside `.pagination`, or 1 when there is none.
   */
  function DetectedPages(doc: Node): nat {
    var pagination := Query(doc, Pagination);
    if pagination.None? then 1
    else
      var links := QueryAll(pagination.value, PageLink);
      if links == [] then 1
      else
        var ns := PageNumbers(links);
        if ns == [] then 1 else MaxOf(ns)
  }

  /** The detected count is the largest page link and no link exceeds it; without page links it is 1. */
  lemma DetectedPagesSpec(doc: Node)
    ensures var links := if Query(doc, Pagination).Some? then QueryAll(Query(doc, Pagination).value, PageLink) else [];
      && (forall j :: 0 <= j < |links| && IsDecimal(links[j].text) ==> DecimalValue(links[j].text) <= DetectedPages(doc))
      && ((exists j :: 0 <= j < |links| && IsDecimal(links[j].text))
            ==> exists j :: 0 <= j < |links| && IsDecimal(links[j].text) && DecimalValue(links[j].text) == DetectedPages(doc))
      && ((forall j :: 0 <= j < |links| ==> !IsDecimal(links[j].text)) ==> DetectedPages(doc) == 1)
  {
    var links := if Query(doc, Pagination).Some? then QueryAll(Query(doc, Pagination).value, PageLink) else [];
    var ns := PageNumbers(links);
    if exists j :: 0 <= j < |links| && IsDecimal(links[j].text) {
      var j :| 0 <= j < |links| && IsDecimal(links[j].text);
      assert DecimalValue(links[j].text) in ns;
      var m := DetectedPages(doc);
      assert m in ns;
    }
    forall j | 0 <= j < |links| && IsDecimal(links[j].text)
      ensures DecimalValue(links[j].text) <= DetectedPages(doc)
    {
      assert DecimalValue(links[j].text) in ns;
    }
  }

  /** `min(total_pages, max_pages) if max_pages else total_pages`; None and 0 are falsy. */
  function PageLimit(detected: nat, maxPages: Option<int>): (n: int)
    ensures maxPages.None? || maxPages.value == 0 ==> n == detected
    ensures maxPages.Some? && maxPages.value != 0 ==> n <= maxPages.value && n <= detected
    ensures maxPages.Some? && maxPages.value != 0 ==> n == maxPages.value || n == detected
  {
    if maxPages.Some? && maxPages.value != 0 then (if detected <= maxPages.value then detected else maxPages.value)
    else detected
  }

  // ---------------------------------------------------------------------
  // Images
  // ---------------------------------------------------------------------

  /** The thumbnail entry: `data-src or src`, cut at '?', with the size suffix removed. */
  function ThumbnailImages(card: Node): seq<string> {
    var img := Query(card, ThumbnailImage);
    if img.None? then []
    else
      var src := FirstNonEmptyAttr(img.value, CardImageAttrs);
      if src.None? then [] else [ReplaceAll(BeforeFirst(src.value, '?'), SizeSuffix, "")]
  }

  /** The suffix removal never fires: the text has already been cut at its first '?'. */
  lemma ThumbnailImagesSpec(card: Node)
    ensures |ThumbnailImages(card)| <= 1
    ensures var img := Query(card, ThumbnailImage);
      ThumbnailImages(card) == if img.Some? && FirstNonEmptyAttr(img.value, CardImageAttrs).Some?
                               then [BeforeFirst(FirstNonEmptyAttr(img.value, CardImageAttrs).value, '?')] else []
  {
    var img := Query(card, ThumbnailImage);
    if img.Some? && FirstNonEmptyAttr(img.value, CardImageAttrs).Some? {
      var cut := BeforeFirst(FirstNonEmptyAttr(img.value, CardImageAttrs).value, '?');
      assert SizeSuffix[0] == '?';
      ReplaceAllMissingChar(cut, SizeSuffix, "", '?');
    }
  }

  /** A detail image's normalised source: cut at '?' and made absolute; None when no attribute is set. */
  function DetailSource(img: Node): Option<string> {
    var src := FirstNonEmptyAttr(img, DetailImageAttrs);
    if src.None? then None else Some(AbsoluteUrl(BeforeFirst(src.value, '?')))
  }

  /** `if src not in images: images.append(src)`. */
  function AddUnique(images: seq<string>, src: string): seq<string> {
    if src in images then images else images + [src]
  }

  /** The image list after the detail images are scanned in page order. */
  function WithDetailImages(images: seq<string>, imgs: seq<Node>): seq<string> {
    if imgs == [] then images
    else
      var before := WithDetailImages(images, imgs[..|imgs| - 1]);
      var src := DetailSource(imgs[|imgs| - 1]);
      if src.None? then before else AddUnique(before, src.value)
  }

  predicate NoDuplicates(s: seq<string>) {
    forall i, j :: 0 <= i < j < |s| ==> s[i] != s[j]
  }

  /** Scanning the detail images keeps the images already collected, in place, as a prefix. */
  lemma {:induction false} WithDetailImagesPrefix(images: seq<string>, imgs: seq<Node>)
    ensures images <= WithDetailImages(images, imgs)
  {
    if imgs != [] {
      WithDetailImagesPrefix(images, imgs[..|imgs| - 1]);
    }
  }

  /** Scanning the detail images never introduces a duplicate. */
  lemma {:induction false} WithDetailImagesUnique(images: seq<string>, imgs: seq<Node>)
    requires NoDuplicates(images)
    ensures NoDuplicates(WithDetailImages(images, imgs))
  {
    if imgs != [] {
      var n := |imgs| - 1;
      WithDetailImagesUnique(images, imgs[..n]);
      var before := WithDetailImages(images, imgs[..n]);
      var src := DetailSource(imgs[n]);
      if src.Some? && src.value !in before {
        var after := before + [src.value];
        assert forall i :: 0 <= i < |before| ==> after[i] == before[i];
      }
    }
  }

  /** The normalised sources of a list of detail images, in page order. */
  function DetailSources(imgs: seq<Node>): (r: seq<Option<string>>)
    ensures |r| == |imgs|
  {
    if imgs == [] then [] else DetailSources(imgs[..|imgs| - 1]) + [DetailSource(imgs[|imgs| - 1])]
  }

  /** The scan ends with exactly the images already collected plus every detail source. */
  lemma {:induction false} WithDetailImagesContents(images: seq<string>, imgs: seq<Node>, s: string)
    ensures s in WithDetailImages(images, imgs) <==> s in images || Some(s) in DetailSources(imgs)
  {
    if imgs != [] {
      WithDetailImagesContents(images, imgs[..|imgs| - 1], s);
    }
  }

  /** Every detail source is absolute and holds no '?'. */
  lemma DetailSourceSpec(img: Node)
    ensures DetailSource(img).Some? ==> "http" <= DetailSource(img).value
    ensures DetailSource(img).Some? <==> FirstNonEmptyAttr(img, DetailImageAttrs).Some?
  {
    var src := FirstNonEmptyAttr(img, DetailImageAttrs);
    if src.Some? {
      AbsoluteUrlShape(BeforeFirst(src.value, '?'));
    }
  }

  /** Every source a list of detail images yields is absolute. */
  lemma {:induction false} DetailSourcesAbsolute(imgs: seq<Node>, s: string)
    requires Some(s) in DetailSources(imgs)
    ensures "http" <= s
  {
    var n := |imgs| - 1;
    if Some(s) in DetailSources(imgs[..n]) {
      DetailSourcesAbsolute(imgs[..n], s);
    } else {
      DetailSourceSpec(imgs[n]);
    }
  }

  /** The detail-image loop: each source not yet listed is appended. */
  method CollectImages(images: seq<string>, detailImages: seq<Node>) returns (result: seq<string>)
    ensures result == WithDetailImages(images, detailImages)
  {
    result := images;
    for i := 0 to |detailImages|
      invariant result == WithDetailImages(images, detailImages[..i])
    {
      assert detailImages[..i + 1][..i] == detailImages[..i];
      var src := FirstNonEmptyAttr(detailImages[i], DetailImageAttrs);
      if src.Some? {
        var normalised := BeforeFirst(src.value, '?');
        if !("http" <= normalised) {
          normalised := BaseUrl + normalised;
        }
        if normalised !in result {
          result := result + [normalised];
        }
      }
    }
    assert detailImages[..|detailImages|] == detailImages;
  }

  // ---------------------------------------------------------------------
  // Items
  // ---------------------------------------------------------------------

  /**
   * The record one card yields: None when it has no title link or the href is
   * empty, or when reading the card raises (`broken`), which the per-card
   * handler logs before going on with the next card. When `detailed`, the item's page is visited and its images added
   * after the thumbnail; a page that fails to load leaves the thumbnail alone.
   */
  function ItemProduct(card: Node, detailed: bool, goto: string -> PageLoad, broken: Node -> bool): Option<Product> {
    var link := Query(card, TitleLink);
    if broken(card) || link.None? || !HasText(Attr(link.value, "href")) then None
    else
      var url := AbsoluteUrl(Attr(link.value, "href").value);
      var thumbs := ThumbnailImages(card);
      var load := goto(url);
      var images := if detailed && load.Loaded? then WithDetailImages(thumbs, QueryAll(load.doc, DetailImage)) else thumbs;
      var priceEl := Query(card, PriceTag);
      var timeEl := Query(card, AttentionText);
      Some(Product(link.value.text,
                   if priceEl.Some? then priceEl.value.text else PriceNotAvailable,
                   if timeEl.Some? then timeEl.value.text else TimeNotAvailable,
                   url, images))
  }

  /**
   * A record's images start with the thumbnail (if any), never repeat, and
   * every further image is an absolute detail-page source.
   */
  lemma ItemProductImages(card: Node, detailed: bool, goto: string -> PageLoad, broken: Node -> bool)
    ensures ItemProduct(card, detailed, goto, broken).Some? ==>
      var p := ItemProduct(card, detailed, goto, broken).value;
      && ThumbnailImages(card) <= p.images
      && NoDuplicates(p.images)
      && (forall i :: |ThumbnailImages(card)| <= i < |p.images| ==> "http" <= p.images[i])
      && (!detailed ==> p.images == ThumbnailImages(card))
  {
    var p := ItemProduct(card, detailed, goto, broken);
    if p.Some? {
      var thumbs := ThumbnailImages(card);
      ThumbnailImagesSpec(card);
      var load := goto(p.value.url);
      if detailed && load.Loaded? {
        var imgs := QueryAll(load.doc, DetailImage);
        WithDetailImagesPrefix(thumbs, imgs);
        WithDetailImagesUnique(thumbs, imgs);
        forall i | |thumbs| <= i < |p.value.images|
          ensures "http" <= p.value.images[i]
        {
          var s := p.value.images[i];
          WithDetailImagesContents(thumbs, imgs, s);
          DetailSourcesAbsolute(imgs, s);
        }
      }
    }
  }

  /** The records the item loop makes from a list of cards. */
  function ItemProducts(items: seq<Node>, detailed: bool, goto: string -> PageLoad, broken: Node -> bool): seq<Product> {
    KeepRead(items, (card: Node) => ItemProduct(card, detailed, goto, broken))
  }

  /** The body of the item loop for one card. */
  method ReadItem(item: Node, detailed: bool, goto: string -> PageLoad, broken: Node -> bool) returns (product: Option<Product>)
    ensures product == ItemProduct(item, detailed, goto, broken)
  {
    if broken(item) {
      // an element-handle call on the card raises; `except Exception` logs it and the loop goes on
      return None;
    }
    var titleElem := Query(item, TitleLink);
    if titleElem.None? {
      return None;
    }
    var title := titleElem.value.text;
    var url := Attr(titleElem.value, "href");
    if !HasText(url) {
      return None;
    }
    var absolute := url.value;
    if !("http" <= absolute) {
      absolute := BaseUrl + absolute;
    }
    AbsoluteUrlShape(url.value);
    var images: seq<string> := [];
    var imgElem := Query(item, ThumbnailImage);
    if imgElem.Some? {
      var src := FirstNonEmptyAttr(imgElem.value, CardImageAttrs);
      if src.Some? {
        var cut := BeforeFirst(src.value, '?');
        cut := ReplaceAll(cut, SizeSuffix, "");
        images := images + [cut];
      }
    }
    assert absolute == AbsoluteUrl(url.value);
    assert images == ThumbnailImages(item);
    if detailed && absolute != "" {
      var detailedPage := goto(absolute);
      if detailedPage.Loaded? {
        images := CollectImages(images, QueryAll(detailedPage.doc, DetailImage));
      }
    }
    var priceEl := Query(item, PriceTag);
    var timeEl := Query(item, AttentionText);
    product := Some(Product(title,
                            if priceEl.Some? then priceEl.value.text else PriceNotAvailable,
                            if timeEl.Some? then timeEl.value.text else TimeNotAvailable,
                            absolute, images));
  }

  /** A card whose read raises is skipped alone: the records of the cards before and after it are kept, in order. */
  lemma FailingItemSkipped(items: seq<Node>, k: int, detailed: bool, goto: string -> PageLoad, broken: Node -> bool)
    requires 0 <= k < |items| && broken(items[k])
    ensures ItemProducts(items, detailed, goto, broken)
            == ItemProducts(items[..k], detailed, goto, broken) + ItemProducts(items[k + 1..], detailed, goto, broken)
  {
    var read := (card: Node) => ItemProduct(card, detailed, goto, broken);
    assert items == (items[..k] + [items[k]]) + items[k + 1..];
    KeepReadAppend(items[..k] + [items[k]], items[k + 1..], read);
    KeepReadSnoc(items[..k], items[k], read);
  }

  /** The item loop: one record per card that has a title link with an href and reads without raising, in card order. */
  method ReadItems(items: seq<Node>, detailed: bool, goto: string -> PageLoad, broken: Node -> bool) returns (products: seq<Product>)
    ensures products == ItemProducts(items, detailed, goto, broken)
  {
    var read := (card: Node) => ItemProduct(card, detailed, goto, broken);
    products := [];
    for j := 0 to |items|
      invariant products == KeepRead(items[..j], read)
    {
      assert items[..j + 1] == items[..j] + [items[j]];
      KeepReadSnoc(items[..j], items[j], read);
      var product := ReadItem(items[j], detailed, goto, broken);
      if product.Some? {
        products := products + [product.value];
      }
    }
    assert items[..|items|] == items;
  }

  // ---------------------------------------------------------------------
  // Search
  // ---------------------------------------------------------------------

  /** Where the page loop leaves `items`: unbound (no page visited), a thrown navigation, or the last page's cards. */
  datatype Visit = Unbound | Failed | Last(items: seq<Node>)

  /** The page loop over pages 1..n. */
  function VisitPages(searchUrl: string, goto: string -> PageLoad, n: int): Visit
    decreases n
  {
    if n < 1 then Unbound
    else
      var before := VisitPages(searchUrl, goto, n - 1);
      var load := goto(PyPageUrl(searchUrl, n));
      if before.Failed? || load.NavigationFailed? then Failed
      else Last(QueryAll(load.doc, ItemCard))
  }

  /** What `scrape_search_results` returns. */
  function PySearch(term: string, minPrice: string, maxPrice: string, maxPages: Option<int>,
                    detailed: bool, goto: string -> PageLoad, broken: Node -> bool): seq<Product>
  {
    var searchUrl := PySearchUrl(term, minPrice, maxPrice);
    var first := goto(searchUrl);
    if first.NavigationFailed? then []
    else
      var visit := VisitPages(searchUrl, goto, PageLimit(DetectedPages(first.doc), maxPages));
      if visit.Last? then ItemProducts(visit.items, detailed, goto, broken) else []
  }

  /** Once a page navigation throws, the page loop's outcome is a failure. */
  lemma {:induction false} VisitFailurePersists(searchUrl: string, goto: string -> PageLoad, k: int, n: int)
    requires 1 <= k <= n
    requires goto(PyPageUrl(searchUrl, k)).NavigationFailed?
    ensures VisitPages(searchUrl, goto, n).Failed?
    decreases n - k
  {
    if k < n {
      VisitFailurePersists(searchUrl, goto, k, n - 1);
    }
  }

  /** When every page loads, the loop ends holding the cards of page n and nothing of the earlier pages. */
  lemma VisitAllLoaded(searchUrl: string, goto: string -> PageLoad, n: int)
    requires n >= 1
    requires forall p :: 1 <= p <= n ==> goto(PyPageUrl(searchUrl, p)).Loaded?
    ensures VisitPages(searchUrl, goto, n) == Last(QueryAll(goto(PyPageUrl(searchUrl, n)).doc, ItemCard))
  {
    if n > 1 {
      VisitAllLoaded(searchUrl, goto, n - 1);
    }
  }

  /**
   * The search yields records only from the last page it visits: with every
   * page loading, the records are those of page `total`'s cards; if any page
   * fails to load, or there is no page to visit, it yields none.
   */
  lemma PySearchLastPageOnly(term: string, minPrice: string, maxPrice: string, maxPages: Option<int>,
                             detailed: bool, goto: string -> PageLoad, broken: Node -> bool)
    ensures var searchUrl := PySearchUrl(term, minPrice, maxPrice);
      var first := goto(searchUrl);
      first.Loaded? ==>
        var total := PageLimit(DetectedPages(first.doc), maxPages);
        && (total < 1 ==> PySearch(term, minPrice, maxPrice, maxPages, detailed, goto, broken) == [])
        && ((exists k :: 1 <= k <= total && goto(PyPageUrl(searchUrl, k)).NavigationFailed?)
              ==> PySearch(term, minPrice, maxPrice, maxPages, detailed, goto, broken) == [])
        && ((total >= 1 && forall p :: 1 <= p <= total ==> goto(PyPageUrl(searchUrl, p)).Loaded?)
              ==> PySearch(term, minPrice, maxPrice, maxPages, detailed, goto, broken)
                  == ItemProducts(QueryAll(goto(PyPageUrl(searchUrl, total)).doc, ItemCard), detailed, goto, broken))
  {
    var searchUrl := PySearchUrl(term, minPrice, maxPrice);
    var first := goto(searchUrl);
    if first.Loaded? {
      var total := PageLimit(DetectedPages(first.doc), maxPages);
      if exists k :: 1 <= k <= total && goto(PyPageUrl(searchUrl, k)).NavigationFailed? {
        var k :| 1 <= k <= total && goto(PyPageUrl(searchUrl, k)).NavigationFailed?;
        VisitFailurePersists(searchUrl, goto, k, total);
      }
      if total >= 1 && (forall p :: 1 <= p <= total ==> goto(PyPageUrl(searchUrl, p)).Loaded?) {
        VisitAllLoaded(searchUrl, goto, total);
      }
    }
  }

  /**
   * `scrape_search_results(term, min_price, max_price, max_pages, detailed)`:
   * load the first page, work out how many pages to visit, visit them all,
   * then run the item loop over the cards of the last one. A thrown error,
   * including the unbound `items` when no page is visited, gives [].
   */
  method ScrapeSearchResults(term: string, minPrice: string, maxPrice: string, maxPages: Option<int>,
                             detailed: bool, goto: string -> PageLoad, broken: Node -> bool)
    returns (products: seq<Product>)
    ensures products == PySearch(term, minPrice, maxPrice, maxPages, detailed, goto, broken)
  {
    var searchUrl := BuildPySearchUrl(term, minPrice, maxPrice);
    var first := goto(searchUrl);
    if first.NavigationFailed? {
      return [];
    }
    var totalPages := DetectedPages(first.doc);
    var limit := PageLimit(totalPages, maxPages);
    var items: Visit := Unbound;
    var page := 1;
    while page <= limit
      invariant 1 <= page <= if limit < 1 then 1 else limit + 1
      invariant items == VisitPages(searchUrl, goto, page - 1)
      invariant !items.Failed?
    {
      var pageUrl := PyPageUrl(searchUrl, page);
      var load := goto(pageUrl);
      if load.NavigationFailed? {
        VisitFailurePersists(searchUrl, goto, page, limit);
        return [];
      }
      items := Last(QueryAll(load.doc, ItemCard));
      page := page + 1;
    }
    if limit < 1 {
      assert VisitPages(searchUrl, goto, limit) == Unbound;
    } else {
      assert page - 1 == limit;
    }
    if items.Unbound? {
      // `for item in items` with `items` never assigned raises, and the handler returns []
      return [];
    }
    products := ReadItems(items.items, detailed, goto, broken);
  }

  // ---------------------------------------------------------------------
  // All pages
  // ---------------------------------------------------------------------

  /** The results of `call(page)`, `call(page + 1)`, ... up to `maxPages`, stopping at the first empty one. */
  function UntilEmpty(call: int -> seq<Product>, page: int, maxPages: int): seq<Product>
    decreases maxPages - page
  {
    if page > maxPages then []
    else if call(page) == [] then []
    else call(page) + UntilEmpty(call, page + 1, maxPages)
  }

  /** The call `scrape_all_pages` makes for page k: its page number lands in the position of `max_pages`. */
  function PageCall(term: string, minPrice: string, maxPrice: string, goto: string -> PageLoad, broken: Node -> bool): int -> seq<Product> {
    k => PySearch(term, minPrice, maxPrice, Some(k), true, goto, broken)
  }

  /** `scrape_all_pages` from call `page` on. */
  function AllPagesFrom(term: string, minPrice: string, maxPrice: string, goto: string -> PageLoad, broken: Node -> bool,
                        page: int, maxPages: int): seq<Product>
  {
    UntilEmpty(PageCall(term, minPrice, maxPrice, goto, broken), page, maxPages)
  }

  /**
   * Because the page number lands in `max_pages`, every call from the
   * advertised page count on visits the same pages and yields the same
   * records: a search with fewer pages than `max_pages` repeats its last page.
   */
  lemma LaterCallsRepeat(term: string, minPrice: string, maxPrice: string, goto: string -> PageLoad, broken: Node -> bool,
                         k1: int, k2: int)
    requires goto(PySearchUrl(term, minPrice, maxPrice)).Loaded?
    requires var d := DetectedPages(goto(PySearchUrl(term, minPrice, maxPrice)).doc); d <= k1 && d <= k2
    ensures PySearch(term, minPrice, maxPrice, Some(k1), true, goto, broken) == PySearch(term, minPrice, maxPrice, Some(k2), true, goto, broken)
  {
    var d := DetectedPages(goto(PySearchUrl(term, minPrice, maxPrice)).doc);
    if k1 != 0 && k2 != 0 {
      assert PageLimit(d, Some(k1)) == d == PageLimit(d, Some(k2));
    } else if k1 == 0 {
      assert PageLimit(d, Some(k1)) == d;
    } else {
      assert PageLimit(d, Some(k2)) == d;
    }
  }

  /** One step of `scrape_all_pages`: a call that yields records extends the result and the loop goes on. */
  lemma UntilEmptyExtend(call: int -> seq<Product>, page: int, maxPages: int,
                         acc: seq<Product>, products: seq<Product>, whole: seq<Product>)
    requires page <= maxPages
    requires products == call(page) && products != []
    requires acc + UntilEmpty(call, page, maxPages) == whole
    ensures (acc + products) + UntilEmpty(call, page + 1, maxPages) == whole
  {
    var rest := UntilEmpty(call, page + 1, maxPages);
    assert acc + (products + rest) == (acc + products) + rest;
  }

  /** A call that yields nothing, or running out of pages, ends the result. */
  lemma UntilEmptyStop(call: int -> seq<Product>, page: int, maxPages: int, acc: seq<Product>, whole: seq<Product>)
    requires page > maxPages || call(page) == []
    requires acc + UntilEmpty(call, page, maxPages) == whole
    ensures acc == whole
  {
    assert acc + [] == acc;
  }

  /** `scrape_all_pages(term, min_price, max_price, max_pages)`. */
  method ScrapeAllPages(term: string, minPrice: string, maxPrice: string, maxPages: int,
                        goto: string -> PageLoad, broken: Node -> bool)
    returns (allProducts: seq<Product>)
    ensures allProducts == AllPagesFrom(term, minPrice, maxPrice, goto, broken, 1, maxPages)
  {
    ghost var call := PageCall(term, minPrice, maxPrice, goto, broken);
    ghost var whole := UntilEmpty(call, 1, maxPages);
    allProducts := [];
    var page := 1;
    while page <= maxPages
      invariant allProducts + UntilEmpty(call, page, maxPages) == whole
      decreases maxPages - page
    {
      var products := ScrapeSearchResults(term, minPrice, maxPrice, Some(page), true, goto, broken);
      assert products == call(page);
      if products == [] {
        UntilEmptyStop(call, page, maxPages, allProducts, whole);
        return;
      }
      UntilEmptyExtend(call, page, maxPages, allProducts, products, whole);
      allProducts := allProducts + products;
      page := page + 1;
    }
    UntilEmptyStop(call, page, maxPages, allProducts, whole);
  }
}
