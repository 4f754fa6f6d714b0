/**
 * app.js: the Express API server in front of the Playwright scraper. Modelled
 * here are its validation, the batching of search terms, the pagination of
 * results, the per-URL collection of refreshed bids and the normalisation of
 * the bid file.
 */
module ApiServer {
  import opened Wrappers
  import opened Json
  import opened Dom
  import opened Records
  import opened BidStore
  import PlaywrightScraper

  // ---------------------------------------------------------------------
  // /place-bid
  // ---------------------------------------------------------------------

  /** The guard `!productUrl || !bidAmount || isNaN(bidAmount) || bidAmount <= 0`, negated. */
  predicate BidRequestValid(productUrl: Value, bidAmount: Value) {
    !(!Truthy(productUrl) || !Truthy(bidAmount) || IsNaN(bidAmount) || ToNumber(bidAmount).value <= 0)
  }

  /**
   * A bid request passes exactly when the URL is truthy and the amount is a
   * number (or numeric text) above zero; the falsy check on the amount adds
   * nothing, since every amount above zero is truthy.
   */
  lemma BidRequestValidIff(productUrl: Value, bidAmount: Value)
    ensures BidRequestValid(productUrl, bidAmount)
            <==> Truthy(productUrl) && ToNumber(bidAmount).Some? && ToNumber(bidAmount).value > 0
  {
  }

  const InvalidBidMessage: string := "Product URL must be valid, and bid amount must be a positive number"
  const FailedBidMessage: string := "Failed to place the bid. Please try again."

  datatype BidRouteResponse =
    | BidRouteOk(message: string, updatedBids: Value)  // {success: true, message, updatedBids}
    | BidRouteRejected(message: string)                // status 400
    | BidRouteFailed(message: string)                  // status 500

  /** A request body that gets past the route's validation. */
  predicate BidRouteReady(body: Value) {
    !body.Null? && !body.Undefined? && BidRequestValid(Field(body, "productId"), Field(body, "amount"))
  }

  /** A request the scraper places: a valid body whose URL is text and whose page is placeable. */
  predicate BidRoutePlaces(body: Value, goto: string -> PageLoad) {
    && BidRouteReady(body)
    && Field(body, "productId").Str?
    && PlaywrightScraper.BidPlaceable(goto(Field(body, "productId").s))
  }

  /**
   * `POST /place-bid`: a missing body makes the destructuring throw (a 500);
   * an invalid request is a 400 and touches nothing; a URL that is not text
   * makes the navigation throw; a "Bid Now" button that is missing is a 400
   * with the scraper's message; a thrown error is a 500. A placed bid is
   * upserted into `file`, the scraper's `bids.json` next to the project
   * directory, but the answer's `updatedBids` is re-read from `data/bids.json`
   * (app.js:8), a different file: `dataBids` is its parsed content, None when
   * it is missing or not JSON, in which case the placed bid still answers 500.
   */
  method PlaceBidRoute(body: Value, goto: string -> PageLoad, file: BidFile, dataBids: Option<Value>)
    returns (r: BidRouteResponse)
    modifies file
    ensures body.Null? || body.Undefined? ==> r == BidRouteFailed(FailedBidMessage)
    ensures (!body.Null? && !body.Undefined? && !BidRequestValid(Field(body, "productId"), Field(body, "amount")))
              ==> r == BidRouteRejected(InvalidBidMessage)
    ensures BidRouteReady(body) && !Field(body, "productId").Str? ==> r == BidRouteFailed(FailedBidMessage)
    ensures BidRouteReady(body) && Field(body, "productId").Str? ==>
              var load := goto(Field(body, "productId").s);
              && (load.NavigationFailed? ==> r == BidRouteFailed(FailedBidMessage))
              && ((load.Loaded? && QueryAll(load.doc, PlaywrightScraper.BidNow) == [])
                    ==> r == BidRouteRejected(PlaywrightScraper.NoBidButtonMessage))
              && ((load.Loaded? && QueryAll(load.doc, PlaywrightScraper.BidNow) != [] && !BidRoutePlaces(body, goto))
                    ==> r == BidRouteFailed(FailedBidMessage))
    ensures r.BidRouteOk? <==> BidRoutePlaces(body, goto) && dataBids.Some?
    ensures r.BidRouteOk? ==>
              && r.updatedBids == dataBids.value
              && r.message == PlaywrightScraper.PlacedMessage(Field(body, "amount"))
    ensures BidRoutePlaces(body, goto) && dataBids.None? ==> r == BidRouteFailed(FailedBidMessage)
    ensures file.bids == if BidRoutePlaces(body, goto)
                         then Upserted(old(file.bids), PlaywrightScraper.PlacedRecord(Field(body, "productId").s,
                                         Field(body, "amount"), goto(Field(body, "productId").s).doc))
                         else old(file.bids)
  {
    if body.Null? || body.Undefined? {
      return BidRouteFailed(FailedBidMessage);
    }
    var productUrl := Field(body, "productId");
    var bidAmount := Field(body, "amount");
    if !BidRequestValid(productUrl, bidAmount) {
      return BidRouteRejected(InvalidBidMessage);
    }
    if !productUrl.Str? {
      return BidRouteFailed(FailedBidMessage);
    }
    var response := PlaywrightScraper.PlaceBid(productUrl.s, bidAmount, goto, file);
    match response
    case Placed(message, _) =>
      if dataBids.None? {
        // `fs.readFileSync` or `JSON.parse` throws after the bid was stored
        r := BidRouteFailed(FailedBidMessage);
      } else {
        r := BidRouteOk(message, dataBids.value);
      }
    case NoBidButton(message) =>
      r := BidRouteRejected(message);
    case BidError(_) =>
      r := BidRouteFailed(FailedBidMessage);
  }

  // ---------------------------------------------------------------------
  // /search: batching
  // ---------------------------------------------------------------------

  /** `Math.ceil(a / b)` for integers. */
  function CeilDiv(a: int, b: int): (q: int)
    requires b != 0
    ensures b > 0 ==> b * (q - 1) < a <= b * q
  {
    if b > 0 then (a + b - 1) / b else (-a + (-b) - 1) / (-b)
  }

  function Min(a: int, b: int): int { if a <= b then a else b }
  function Max(a: int, b: int): int { if a >= b then a else b }

  /** JavaScript `s.slice(start, end)`: negative positions count from the end, both are clamped. */
  function Slice<T>(s: seq<T>, start: int, end: int): (r: seq<T>)
    ensures |r| <= |s|
    ensures 0 <= start <= end ==> r == s[Min(start, |s|)..Min(end, |s|)]
  {
    var from := if start < 0 then Max(|s| + start, 0) else Min(start, |s|);
    var to := if end < 0 then Max(|s| + end, 0) else Min(end, |s|);
    if from < to then s[from..to] else []
  }

  const NoTermsMessage: string := "No search terms provided"

  const BatchSize: int := 1

  /** A string walked as a list: its one-character strings, in order. */
  function Characters(s: string): (r: seq<Value>)
    ensures |r| == |s|
    ensures forall i :: 0 <= i < |s| ==> r[i] == Str([s[i]])
  {
    if s == [] then [] else [Str([s[0]])] + Characters(s[1..])
  }

  /** The outcome of reading `terms` off a `/search` request. */
  datatype TermsCheck =
    | TermsOk(terms: seq<Value>)  // the terms to search, never empty
    | NoTerms                     // status 400
    | NoBatches                   // the batch count is not positive: no search runs and the route answers success with no results
    | TermsCrash                  // status 500: a missing body, `null.length`, or a non-list the loops cannot slice

  /**
   * `const { terms: searchTerms = [] } = req.body; if (!searchTerms.length) ...`:
   * a missing or empty list, or a value without a length, is a 400. A string
   * has a length and is walked character by character. An object with a
   * truthy `length` gets past the check; `Math.ceil(length / batchSize)` then
   * decides: a positive count enters the loop, where `searchTerms.slice` is
   * not a function and throws, and any other count (negative, zero or NaN)
   * skips the loop.
   */
  function CheckTerms(body: Value): (r: TermsCheck)
    ensures r.TermsOk? ==> |r.terms| > 0
    ensures body.Obj? && "terms" !in body.fields ==> r == NoTerms
    ensures body.Obj? && "terms" in body.fields && body.fields["terms"].Arr? ==>
      r == if body.fields["terms"].items == [] then NoTerms else TermsOk(body.fields["terms"].items)
    ensures body.Obj? && "terms" in body.fields && body.fields["terms"].Str? ==>
      (r.TermsOk? <==> body.fields["terms"].s != "") && (r.TermsOk? ==> |r.terms| == |body.fields["terms"].s|)
    ensures body.Obj? && "terms" in body.fields && body.fields["terms"].Obj? ==>
      var len := Field(body.fields["terms"], "length");
      && (!Truthy(len) ==> r == NoTerms)
      && (Truthy(len) && ToNumber(len).Some? && ToNumber(len).value > 0 ==> r == TermsCrash)
      && (Truthy(len) && (ToNumber(len).None? || ToNumber(len).value <= 0) ==> r == NoBatches)
    ensures body.Null? || body.Undefined? ==> r == TermsCrash
    ensures r == NoBatches ==> body.Obj? && "terms" in body.fields && body.fields["terms"].Obj?
  {
    if body.Null? || body.Undefined? then TermsCrash
    else
      var searchTerms := Default(Field(body, "terms"), Arr([]));
      match searchTerms
      case Null => TermsCrash
      case Arr(items) => if items == [] then NoTerms else TermsOk(items)
      case Str(s) => if s == "" then NoTerms else TermsOk(Characters(s))
      case Obj(_) =>
        var len := Field(searchTerms, "length");
        if !Truthy(len) then NoTerms
        else if ToNumber(len).None? then NoBatches  // `0 < NaN` is false
        else if CeilDiv(ToNumber(len).value, BatchSize) > 0 then TermsCrash
        else NoBatches
      case _ => NoTerms
  }

  /** The i-th batch: `searchTerms.slice(i * batchSize, i * batchSize + batchSize)`. */
  function Batch<T>(terms: seq<T>, i: int, batchSize: int): seq<T> {
    Slice(terms, i * batchSize, i * batchSize + batchSize)
  }

  /** The batches 0..k-1, concatenated. */
  function Batches<T>(terms: seq<T>, k: int, batchSize: int): seq<T>
    decreases k
  {
    if k <= 0 then [] else Batches(terms, k - 1, batchSize) + Batch(terms, k - 1, batchSize)
  }

  /** Batches 0..k-1 hold exactly the first k * batchSize terms. */
  lemma {:induction false} BatchesPrefix<T>(terms: seq<T>, k: nat, batchSize: int)
    requires batchSize >= 1
    ensures Batches(terms, k, batchSize) == terms[..Min(k * batchSize, |terms|)]
  {
    if k > 0 {
      BatchesPrefix(terms, k - 1, batchSize);
      assert (k - 1) * batchSize + batchSize == k * batchSize;
      assert 0 <= (k - 1) * batchSize;
    }
  }

  /**
   * There are `ceil(n / batchSize)` batches; each holds at most `batchSize`
   * terms, and concatenating them in order gives back the term list.
   */
  lemma BatchesCover<T>(terms: seq<T>, batchSize: int)
    requires batchSize >= 1
    ensures Batches(terms, CeilDiv(|terms|, batchSize), batchSize) == terms
    ensures forall i :: 0 <= i < CeilDiv(|terms|, batchSize) ==> |Batch(terms, i, batchSize)| <= batchSize
  {
    var k := CeilDiv(|terms|, batchSize);
    CeilDivCovers(|terms|, batchSize);
    BatchesPrefix(terms, k, batchSize);
    forall i | 0 <= i < k
      ensures |Batch(terms, i, batchSize)| <= batchSize
    {
      BatchBounded(terms, i, batchSize);
    }
  }

  lemma CeilDivCovers(n: nat, batchSize: int)
    requires batchSize >= 1
    ensures CeilDiv(n, batchSize) >= 0 && Min(CeilDiv(n, batchSize) * batchSize, n) == n
  {
  }

  lemma BatchBounded<T>(terms: seq<T>, i: nat, batchSize: int)
    requires batchSize >= 1
    ensures |Batch(terms, i, batchSize)| <= batchSize
  {
    MulNonNegative(i, batchSize);
  }

  /** The arguments one search term gives: `{ term = '', minPrice = '', maxPrice = '' } = searchTerm`. */
  datatype SearchArgs = SearchArgs(term: Value, minPrice: Value, maxPrice: Value)

  /** A destructuring default: it applies only to `undefined`. */
  function Default(v: Value, d: Value): Value {
    if v.Undefined? then d else v
  }

  /** The scraper's answer for one term, `scrapeSearchResults(term, minPrice, maxPrice, '23000', 3)`. */
  type SearchScrape = SearchArgs -> seq<Listing>

  /** Destructuring `null` or `undefined` throws; any other term yields its fields or the defaults. */
  function ArgsOf(searchTerm: Value): Option<SearchArgs> {
    if searchTerm.Null? || searchTerm.Undefined? then None
    else Some(SearchArgs(Default(Field(searchTerm, "term"), Str("")),
                         Default(Field(searchTerm, "minPrice"), Str("")),
                         Default(Field(searchTerm, "maxPrice"), Str(""))))
  }

  /**
   * The collected per-term answers: one per term, in term order (an array is
   * always truthy, so each answer is kept), or None when a term throws.
   */
  function ScrapeEach(terms: seq<Value>, scrape: SearchScrape): Option<seq<seq<Listing>>> {
    if terms == [] then Some([])
    else
      var before := ScrapeEach(terms[..|terms| - 1], scrape);
      var args := ArgsOf(terms[|terms| - 1]);
      if before.None? || args.None? then None else Some(before.value + [scrape(args.value)])
  }

  /** Without a null term, there is exactly one answer per term, that term's own. */
  lemma {:induction false} ScrapeEachSpec(terms: seq<Value>, scrape: SearchScrape)
    ensures ScrapeEach(terms, scrape).Some? <==> forall i :: 0 <= i < |terms| ==> ArgsOf(terms[i]).Some?
    ensures ScrapeEach(terms, scrape).Some? ==>
      |ScrapeEach(terms, scrape).value| == |terms|
      && forall i :: 0 <= i < |terms| ==> ScrapeEach(terms, scrape).value[i] == scrape(ArgsOf(terms[i]).value)
  {
    if terms != [] {
      var n := |terms| - 1;
      ScrapeEachSpec(terms[..n], scrape);
      assert forall i :: 0 <= i < n ==> terms[..n][i] == terms[i];
    }
  }

  /**
   * The batch loops of `POST /search`: walk the batches in order and, inside
   * each, the terms in order, collecting every scraper answer.
   */
  method RunBatches(searchTerms: seq<Value>, scrape: SearchScrape) returns (searchResultFiles: Option<seq<seq<Listing>>>)
    ensures searchResultFiles == ScrapeEach(searchTerms, scrape)
  {
    var totalBatches := CeilDiv(|searchTerms|, BatchSize);
    var files: seq<seq<Listing>> := [];
    for batchIndex := 0 to totalBatches
      invariant ScrapeEach(searchTerms[..batchIndex], scrape).Some?
      invariant files == ScrapeEach(searchTerms[..batchIndex], scrape).value
    {
      var startIndex := batchIndex * BatchSize;
      var batch := Slice(searchTerms, startIndex, startIndex + BatchSize);
      assert batch == [searchTerms[batchIndex]];
      assert searchTerms[..batchIndex + 1][..batchIndex] == searchTerms[..batchIndex];
      var args := ArgsOf(batch[0]);
      if args.None? {
        ScrapeEachNonePersists(searchTerms, scrape, batchIndex + 1);
        return None;
      }
      var searchResultFile := scrape(args.value);
      files := files + [searchResultFile];
    }
    assert searchTerms[..|searchTerms|] == searchTerms;
    searchResultFiles := Some(files);
  }

  lemma {:induction false} ScrapeEachNonePersists(terms: seq<Value>, scrape: SearchScrape, k: nat)
    requires k <= |terms|
    requires ScrapeEach(terms[..k], scrape).None?
    ensures ScrapeEach(terms, scrape).None?
    decreases |terms| - k
  {
    if k < |terms| {
      assert terms[..k + 1][..k] == terms[..k];
      ScrapeEachNonePersists(terms, scrape, k + 1);
    } else {
      assert terms[..k] == terms;
    }
  }

  // ---------------------------------------------------------------------
  // /search: pagination
  // ---------------------------------------------------------------------

  /** `results.slice((page - 1) * pageSize, (page - 1) * pageSize + pageSize)`. */
  function Paginate<T>(results: seq<T>, page: int, pageSize: int): seq<T> {
    Slice(results, (page - 1) * pageSize, (page - 1) * pageSize + pageSize)
  }

  /** `Math.ceil(totalResults / pageSize)`; None stands for the `null` a division by zero serialises to. */
  function PageCount(totalResults: nat, pageSize: int): Option<int> {
    if pageSize == 0 then None else Some(CeilDiv(totalResults, pageSize))
  }

  /** The fields of a successful search response. */
  datatype SearchPage<T> = SearchPage(results: seq<T>, count: nat, totalResults: nat, currentPage: int, totalPages: Option<int>)

  function SearchResponse<T>(results: seq<T>, page: int, pageSize: int): SearchPage<T> {
    var paginated := Paginate(results, page, pageSize);
    SearchPage(paginated, |paginated|, |results|, page, PageCount(|results|, pageSize))
  }

  /**
   * For page >= 1 and pageSize >= 1 the page is the window
   * `[(page-1)*pageSize, min(len, page*pageSize))`: never longer than
   * `pageSize`, and empty beyond the last page.
   */
  lemma PaginateSpec<T>(results: seq<T>, page: int, pageSize: int)
    requires page >= 1 && pageSize >= 1
    ensures var start := (page - 1) * pageSize;
      Paginate(results, page, pageSize)
        == if start >= |results| then [] else results[start..Min(|results|, start + pageSize)]
    ensures |Paginate(results, page, pageSize)| <= pageSize
    ensures page > CeilDiv(|results|, pageSize) ==> Paginate(results, page, pageSize) == []
  {
    var start := (page - 1) * pageSize;
    MulNonNegative(page - 1, pageSize);
    assert start + pageSize == page * pageSize;
    if page > CeilDiv(|results|, pageSize) {
      var q := CeilDiv(|results|, pageSize);
      MulMonotone(q, page - 1, pageSize);
    }
  }

  lemma MulNonNegative(a: int, b: int)
    requires a >= 0 && b >= 0
    ensures a * b >= 0
  {
  }

  lemma MulMonotone(a: int, b: int, c: int)
    requires a <= b && c >= 0
    ensures a * c <= b * c
  {
    assert b * c - a * c == (b - a) * c;
    MulNonNegative(b - a, c);
  }

  /** Record k sits on page `k / pageSize + 1`, at position `k % pageSize`. */
  lemma PaginatePosition<T>(results: seq<T>, pageSize: int, k: int)
    requires pageSize >= 1 && 0 <= k < |results|
    ensures var p := k / pageSize + 1;
      k % pageSize < |Paginate(results, p, pageSize)| && Paginate(results, p, pageSize)[k % pageSize] == results[k]
  {
    DivMod(k, pageSize);
    PaginateAt(results, k / pageSize + 1, pageSize, k % pageSize);
  }

  lemma DivMod(k: int, m: int)
    requires m >= 1
    ensures k == (k / m + 1 - 1) * m + k % m && 0 <= k % m < m
  {
  }

  /** Position r of page `page` is record `(page - 1) * pageSize + r`. */
  lemma PaginateAt<T>(results: seq<T>, page: int, pageSize: int, r: int)
    requires page >= 1 && 0 <= r < pageSize && (page - 1) * pageSize + r < |results|
    ensures r < |Paginate(results, page, pageSize)|
    ensures Paginate(results, page, pageSize)[r] == results[(page - 1) * pageSize + r]
  {
    var start := (page - 1) * pageSize;
    MulNonNegative(page - 1, pageSize);
    assert Paginate(results, page, pageSize) == results[start..Min(start + pageSize, |results|)];
  }

  /** The response counts what it returns, reports the full total, and its page count is the ceiling. */
  lemma SearchResponseSpec<T>(results: seq<T>, page: int, pageSize: int)
    requires pageSize >= 1
    ensures SearchResponse(results, page, pageSize).count == |SearchResponse(results, page, pageSize).results|
    ensures SearchResponse(results, page, pageSize).totalResults == |results|
    ensures var n := SearchResponse(results, page, pageSize).totalPages.value;
      pageSize * (n - 1) < |results| <= pageSize * n
  {
    PageCountSpec(|results|, pageSize);
  }

  /** With a positive page size, the page count is the least n with `total <= pageSize * n`. */
  lemma PageCountSpec(total: nat, pageSize: int)
    requires pageSize >= 1
    ensures PageCount(total, pageSize).Some?
    ensures var n := PageCount(total, pageSize).value;
      pageSize * (n - 1) < total <= pageSize * n
  {
    var n := CeilDiv(total, pageSize);
    assert PageCount(total, pageSize) == Some(n);
  }


  /**
   * `const { page = 1, pageSize = 100 } = req.body`: a missing field takes
   * its default. None when either value is not a number, which this model
   * does not follow through the arithmetic.
   */
  function PageParams(body: Value): (r: Option<(int, int)>)
    ensures Field(body, "page").Undefined? && Field(body, "pageSize").Undefined? ==> r == Some((1, 100))
    ensures r.Some? ==> (Field(body, "page").Num? ==> r.value.0 == Field(body, "page").n)
                        && (Field(body, "pageSize").Num? ==> r.value.1 == Field(body, "pageSize").n)
  {
    var page := Default(Field(body, "page"), Num(1));
    var pageSize := Default(Field(body, "pageSize"), Num(100));
    if page.Num? && pageSize.Num? then Some((page.n, pageSize.n)) else None
  }

  /** The success body of `/search` for the request `body`, when its page fields are numbers. */
  function SearchResponseFor<T>(body: Value, results: seq<T>): Option<SearchPage<T>> {
    match PageParams(body)
    case Some((page, pageSize)) => Some(SearchResponse(results, page, pageSize))
    case None => None
  }

  /**
   * A request that sends only `terms`, as the search form does, gets the
   * first 100 records, page 1, and the page count `ceil(n / 100)`.
   */
  lemma DefaultSearchPage<T>(body: Value, results: seq<T>)
    requires Field(body, "page").Undefined? && Field(body, "pageSize").Undefined?
    ensures SearchResponseFor(body, results).Some?
    ensures var r := SearchResponseFor(body, results).value;
      && r.results == results[..Min(100, |results|)]
      && r.currentPage == 1
      && r.totalResults == |results|
      && r.totalPages == Some(CeilDiv(|results|, 100))
  {
    assert PageParams(body) == Some((1, 100));
    PaginateSpec(results, 1, 100);
    if |results| == 0 {
      assert results[..0] == [];
    }
  }

  // ---------------------------------------------------------------------
  // /update-bid-prices
  // ---------------------------------------------------------------------

  const InvalidUrlsMessage: string := "Product URLs must be an array and cannot be empty"
  const RefreshDefaultError: string := "Failed to retrieve bid details"

  /** One entry of `updatedBids`: what `updateBid` returned, or the error it threw. */
  datatype BidUpdate =
    | Returned(result: UpdateResult)
    | Thrown(productUrl: Value, error: string)

  /** `scraper.updateBid(productUrl)`: its result, or Err(message) when it throws. */
  type Refresh = Value -> Result<UpdateResult, string>

  function EntryFor(productUrl: Value, refresh: Refresh): (e: BidUpdate)
    ensures e.Thrown? ==> e.productUrl == productUrl && e.error != ""
  {
    match refresh(productUrl)
    case Ok(result) => Returned(result)
    case Err(message) => Thrown(productUrl, if message != "" then message else RefreshDefaultError)
  }

  datatype UpdateResponse =
    | UpdateOk(updatedBids: seq<BidUpdate>, count: nat)
    | UpdateRejected(message: string)  // status 400
    | UpdateFailed                     // status 500: destructuring a missing body throws

  /**
   * `POST /update-bid-prices`: anything but a non-empty array is a 400;
   * otherwise there is exactly one entry per URL, in order, a thrown refresh
   * recorded against its URL.
   */
  method UpdateBidPrices(body: Value, refresh: Refresh) returns (r: UpdateResponse)
    ensures r.UpdateFailed? <==> body.Null? || body.Undefined?
    ensures (!body.Null? && !body.Undefined? && !(Field(body, "productUrls").Arr? && Field(body, "productUrls").items != []))
              <==> r == UpdateRejected(InvalidUrlsMessage)
    ensures r.UpdateOk? ==>
      var urls := Field(body, "productUrls").items;
      && r.count == |r.updatedBids| == |urls|
      && forall i :: 0 <= i < |urls| ==> r.updatedBids[i] == EntryFor(urls[i], refresh)
  {
    if body.Null? || body.Undefined? {
      return UpdateFailed;
    }
    var productUrls := Field(body, "productUrls");
    if !productUrls.Arr? || |productUrls.items| == 0 {
      return UpdateRejected(InvalidUrlsMessage);
    }
    var urls := productUrls.items;
    var updatedBids: seq<BidUpdate> := [];
    for i := 0 to |urls|
      invariant |updatedBids| == i
      invariant forall k :: 0 <= k < i ==> updatedBids[k] == EntryFor(urls[k], refresh)
    {
      var outcome := refresh(urls[i]);
      match outcome
      case Ok(bidDetails) =>
        updatedBids := updatedBids + [Returned(bidDetails)];
      case Err(message) =>
        updatedBids := updatedBids + [Thrown(urls[i], if message != "" then message else RefreshDefaultError)];
    }
    r := UpdateOk(updatedBids, |updatedBids|);
  }

  // ---------------------------------------------------------------------
  // /bids
  // ---------------------------------------------------------------------

  /**
   * `Array.isArray(bidsData) ? bidsData : (bidsData.bids || [])`; None stands
   * for the TypeError `null.bids` raises (a 500).
   */
  function NormalizeBids(bidsData: Value): (r: Option<Value>)
    ensures r.None? <==> bidsData.Null? || bidsData.Undefined?
    ensures bidsData.Arr? ==> r == Some(bidsData)
    ensures r.Some? && !bidsData.Arr? ==>
      (Truthy(Field(bidsData, "bids")) ==> r.value == Field(bidsData, "bids"))
      && (!Truthy(Field(bidsData, "bids")) ==> r.value == Arr([]))
  {
    if bidsData.Arr? then Some(bidsData)
    else if bidsData.Null? || bidsData.Undefined? then None
    else
      var bids := Field(bidsData, "bids");
      Some(if Truthy(bids) then bids else Arr([]))
  }

  /**
   * A file in the `{bids: [...]}` shape `placeBid` writes (to its own
   * `bids.json`; `/bids` reads `data/bids.json`) normalises to its list, even
   * when the list is empty; and normalising a list again changes nothing.
   */
  lemma NormalizeBidFile(bids: seq<Value>, other: map<string, Value>)
    ensures NormalizeBids(Obj(other["bids" := Arr(bids)])) == Some(Arr(bids))
    ensures NormalizeBids(Obj(other["bids" := Arr(bids)])).value.Arr?
    ensures NormalizeBids(NormalizeBids(Obj(other["bids" := Arr(bids)])).value) == Some(Arr(bids))
  {
  }
}
