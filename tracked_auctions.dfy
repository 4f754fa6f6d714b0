/**
 * TrackedAuctions.tsx: the page of auctions being tracked. A bid whose
 * amount is exactly 999 marks a tracked auction; the page joins the scraped
 * details of those auctions with their bids, and refreshes prices and
 * remaining times from the server on demand.
 */
module TrackedAuctions {
  import opened Wrappers
  import opened Json
  import opened Records
  import opened BidStore

  /** The amount that marks a bid as "tracked" rather than placed. */
  const TrackedAmount: int := 999

  const RefreshFailedMessage: string := "Failed to refresh bid prices"

  /** `{...product, bidAmount, title, images}`. */
  datatype TrackedProduct = TrackedProduct(
    title: string, price: string, timeRemaining: string, url: string, images: seq<string>,
    bidAmount: Value)

  /** One entry of the refresh reply: `{productUrl, price, timeRemaining}`. */
  datatype UpdatedBid = UpdatedBid(productUrl: string, price: string, timeRemaining: string)

  // ---------------------------------------------------------------------
  // The tracked-bid filter
  // ---------------------------------------------------------------------

  /** `bid.bidAmount === 999`: strict, so the text "999" does not count. */
  predicate IsTracked(bid: BidRecord) {
    bid.bidAmount == Num(TrackedAmount)
  }

  /** `bidsData.filter(bid => bid.bidAmount === 999)`. */
  function TrackedBids(bids: seq<BidRecord>): (r: seq<BidRecord>)
    ensures |r| <= |bids|
  {
    if bids == [] then []
    else
      var rest := TrackedBids(bids[..|bids| - 1]);
      if IsTracked(bids[|bids| - 1]) then rest + [bids[|bids| - 1]] else rest
  }

  /** Exactly the bids of the tracked amount are kept. */
  lemma {:induction false} TrackedBidsMembers(bids: seq<BidRecord>)
    ensures forall b :: b in TrackedBids(bids) <==> b in bids && IsTracked(b)
  {
    if bids != [] {
      TrackedBidsMembers(bids[..|bids| - 1]);
      assert bids == bids[..|bids| - 1] + [bids[|bids| - 1]];
    }
  }

  /** The filter works bid by bid: filtering a concatenation concatenates, so the order is kept. */
  lemma {:induction false} TrackedBidsAppend(a: seq<BidRecord>, b: seq<BidRecord>)
    ensures TrackedBids(a + b) == TrackedBids(a) + TrackedBids(b)
    decreases |b|
  {
    if b == [] {
      assert a + b == a;
    } else {
      var init, last := b[..|b| - 1], b[|b| - 1];
      TrackedBidsAppend(a, init);
      var extra := if IsTracked(last) then [last] else [];
      assert (a + b)[..|a + b| - 1] == a + init;
      assert (a + b)[|a + b| - 1] == last;
      assert TrackedBids(a + b) == TrackedBids(a + init) + extra;
      assert TrackedBids(b) == TrackedBids(init) + extra;
      assert TrackedBids(a) + TrackedBids(init) + extra == TrackedBids(a) + (TrackedBids(init) + extra);
    }
  }

  /** Filtering the filtered list changes nothing. */
  lemma {:induction false} TrackedBidsIdempotent(bids: seq<BidRecord>)
    ensures TrackedBids(TrackedBids(bids)) == TrackedBids(bids)
    decreases |bids|
  {
    if bids != [] {
      var init := bids[..|bids| - 1];
      TrackedBidsIdempotent(init);
      if IsTracked(bids[|bids| - 1]) {
        TrackedBidsAppend(TrackedBids(init), [bids[|bids| - 1]]);
        assert TrackedBids([bids[|bids| - 1]]) == [bids[|bids| - 1]] by {
          assert [bids[|bids| - 1]][..0] == [];
        }
      }
    }
  }

  // ---------------------------------------------------------------------
  // The product/bid merge
  // ---------------------------------------------------------------------

  /** `trackedBids.find(bid => bid.productUrl === product.url)`. */
  function MatchingBid(bids: seq<BidRecord>, url: string): (r: Option<BidRecord>)
    ensures r.None? <==> forall i :: 0 <= i < |bids| ==> bids[i].productUrl != url
    ensures r.Some? ==> r.value in bids && r.value.productUrl == url
    ensures r.Some? ==> exists k :: 0 <= k < |bids| && bids[k] == r.value
                                    && forall j :: 0 <= j < k ==> bids[j].productUrl != url
  {
    var k := FindIndex(bids, url);
    if k == -1 then None else Some(bids[k])
  }

  /** The record the page shows for one scraped product. */
  function WithBid(product: Product, trackedBids: seq<BidRecord>): TrackedProduct {
    var m := MatchingBid(trackedBids, product.url);
    TrackedProduct(
      if m.Some? && m.value.title != "" then m.value.title else product.title,
      product.price,
      product.timeRemaining,
      product.url,
      if m.Some? && m.value.thumbnailUrl.Some? && m.value.thumbnailUrl.value != ""
      then [m.value.thumbnailUrl.value] else product.images,
      if m.Some? && Truthy(m.value.bidAmount) then m.value.bidAmount else Num(0))
  }

  /** `updatedDetails.map(product => ({...product, bidAmount, title, images}))`. */
  function ProductsWithBids(details: seq<Product>, trackedBids: seq<BidRecord>): seq<TrackedProduct> {
    seq(|details|, i requires 0 <= i < |details| => WithBid(details[i], trackedBids))
  }

  /**
   * The merge keeps the details' length, order, urls, prices and times. A
   * product whose url some tracked bid names carries amount 999 and that
   * bid's title and thumbnail when they are not empty; any other product
   * keeps its own title and images with amount 0.
   */
  lemma ProductsWithBidsSpec(details: seq<Product>, bids: seq<BidRecord>)
    ensures var r := ProductsWithBids(details, TrackedBids(bids));
      && |r| == |details|
      && forall i :: 0 <= i < |details| ==>
        && r[i].url == details[i].url && r[i].price == details[i].price
        && r[i].timeRemaining == details[i].timeRemaining
        && ((exists b :: b in bids && IsTracked(b) && b.productUrl == details[i].url)
              <==> r[i].bidAmount == Num(TrackedAmount))
        && (r[i].bidAmount == Num(TrackedAmount) || r[i].bidAmount == Num(0))
        && (r[i].title == details[i].title
              || exists b :: b in bids && IsTracked(b) && b.productUrl == details[i].url && r[i].title == b.title)
        && (r[i].images == details[i].images
              || exists b :: b in bids && IsTracked(b) && b.productUrl == details[i].url
                              && b.thumbnailUrl.Some? && r[i].images == [b.thumbnailUrl.value])
    ensures var r := ProductsWithBids(details, TrackedBids(bids));
      forall i :: 0 <= i < |details| ==>
        var m := MatchingBid(TrackedBids(bids), details[i].url);
        && (m.Some? && m.value.title != "" ==> r[i].title == m.value.title)
        && (m.None? || m.value.title == "" ==> r[i].title == details[i].title)
        && ((m.Some? && m.value.thumbnailUrl.Some? && m.value.thumbnailUrl.value != "")
              ==> r[i].images == [m.value.thumbnailUrl.value])
        && ((m.None? || m.value.thumbnailUrl.None? || m.value.thumbnailUrl.value == "")
              ==> r[i].images == details[i].images)
  {
    var tracked := TrackedBids(bids);
    TrackedBidsMembers(bids);
    var r := ProductsWithBids(details, tracked);
    forall i | 0 <= i < |details|
      ensures (exists b :: b in bids && IsTracked(b) && b.productUrl == details[i].url)
              <==> r[i].bidAmount == Num(TrackedAmount)
    {
      var m := MatchingBid(tracked, details[i].url);
      if exists b :: b in bids && IsTracked(b) && b.productUrl == details[i].url {
        var b :| b in bids && IsTracked(b) && b.productUrl == details[i].url;
        assert b in tracked;
        var k :| 0 <= k < |tracked| && tracked[k] == b;
        assert m.Some?;
      }
    }
  }

  /** The first matching bid decides; a product no tracked bid names keeps its own fields. */
  lemma WithBidUnmatched(product: Product, trackedBids: seq<BidRecord>)
    requires forall i :: 0 <= i < |trackedBids| ==> trackedBids[i].productUrl != product.url
    ensures WithBid(product, trackedBids)
      == TrackedProduct(product.title, product.price, product.timeRemaining, product.url, product.images, Num(0))
  {
  }

  // ---------------------------------------------------------------------
  // The price-refresh merge
  // ---------------------------------------------------------------------

  /** `data.updatedBids.find(bid => bid.productUrl === product.url)`. */
  function FindUpdate(updates: seq<UpdatedBid>, url: string): (r: Option<UpdatedBid>)
    ensures r.None? <==> forall i :: 0 <= i < |updates| ==> updates[i].productUrl != url
    ensures r.Some? ==> r.value in updates && r.value.productUrl == url
    ensures r.Some? ==> exists k :: 0 <= k < |updates| && updates[k] == r.value
                                    && forall j :: 0 <= j < k ==> updates[j].productUrl != url
  {
    if updates == [] then None
    else if updates[0].productUrl == url then Some(updates[0])
    else
      var rest := FindUpdate(updates[1..], url);
      assert rest.Some? ==> exists k :: 1 <= k < |updates| && updates[k] == rest.value
                                         && forall j :: 0 <= j < k ==> updates[j].productUrl != url by {
        if rest.Some? {
          var k :| 0 <= k < |updates[1..]| && updates[1..][k] == rest.value
                   && forall j :: 0 <= j < k ==> updates[1..][j].productUrl != url;
          assert updates[k + 1] == rest.value;
          assert forall j :: 0 <= j < k + 1 ==> updates[j].productUrl != url by {
            forall j | 0 <= j < k + 1
              ensures updates[j].productUrl != url
            {
              if j > 0 {
                assert updates[j] == updates[1..][j - 1];
              }
            }
          }
        }
      }
      rest
  }

  /** One product after a refresh: the new price and time when an update names it, else as it was. */
  function Refreshed(product: TrackedProduct, updates: seq<UpdatedBid>): TrackedProduct {
    match FindUpdate(updates, product.url)
    case Some(u) => product.(price := u.price, timeRemaining := u.timeRemaining)
    case None => product
  }

  /** `prev.map(product => ...)`. */
  function RefreshedProducts(products: seq<TrackedProduct>, updates: seq<UpdatedBid>): seq<TrackedProduct> {
    seq(|products|, i requires 0 <= i < |products| => Refreshed(products[i], updates))
  }

  /**
   * A refresh keeps the list's length, order, urls, titles, images and
   * amounts; it changes price and remaining time only of a product some
   * update names, and a second refresh with the same reply changes nothing.
   */
  lemma RefreshedProductsSpec(products: seq<TrackedProduct>, updates: seq<UpdatedBid>)
    ensures var r := RefreshedProducts(products, updates);
      && |r| == |products|
      && (forall i :: 0 <= i < |products| ==>
            r[i] == products[i].(price := r[i].price, timeRemaining := r[i].timeRemaining))
      && (forall i :: 0 <= i < |products| ==>
            (forall k :: 0 <= k < |updates| ==> updates[k].productUrl != products[i].url) ==> r[i] == products[i])
      && (forall i :: 0 <= i < |products| ==>
            (exists k :: 0 <= k < |updates| && updates[k].productUrl == products[i].url
                         && r[i].price == updates[k].price && r[i].timeRemaining == updates[k].timeRemaining)
            || r[i] == products[i])
      && RefreshedProducts(r, updates) == r
  {
    var r := RefreshedProducts(products, updates);
    forall i | 0 <= i < |products|
      ensures Refreshed(r[i], updates) == r[i]
    {
      assert r[i].url == products[i].url;
    }
  }

  // ---------------------------------------------------------------------
  // The page's state
  // ---------------------------------------------------------------------

  /** The `/details` reply: `{success, updatedDetails}`. */
  datatype DetailsReply = DetailsReply(success: bool, updatedDetails: seq<Product>)

  /** The `/update-bid-prices` reply as the page sees it: HTTP ok, `{success, error, updatedBids}`. */
  datatype RefreshReply = RefreshReply(ok: bool, success: bool, error: string, updatedBids: seq<UpdatedBid>)

  /** The urls the page asks details for: `trackedBids.map(bid => bid.productUrl)`. */
  function BidUrls(bids: seq<BidRecord>): seq<string> {
    seq(|bids|, i requires 0 <= i < |bids| => bids[i].productUrl)
  }

  function ProductUrls(products: seq<TrackedProduct>): seq<string> {
    seq(|products|, i requires 0 <= i < |products| => products[i].url)
  }

  /** What `fetchTrackedAuctions` leaves in the list, or the error it records. */
  function FetchOutcome(bids: Result<seq<BidRecord>, string>, fetchDetails: seq<string> -> Result<DetailsReply, string>)
    : Result<seq<TrackedProduct>, string>
  {
    match bids
    case Err(message) => Err(message)
    case Ok(bidsData) =>
      var trackedBids := TrackedBids(bidsData);
      if |trackedBids| == 0 then Ok([])
      else
        match fetchDetails(BidUrls(trackedBids))
        case Err(message) => Err(message)
        case Ok(reply) =>
          if !reply.success || |reply.updatedDetails| == 0 then Ok([])
          else Ok(ProductsWithBids(reply.updatedDetails, trackedBids))
  }

  /** The state of the tracked-auctions page. */
  class TrackedAuctionsView {
    var trackedProducts: seq<TrackedProduct>
    var loading: bool
    var error: Option<string>
    var isRefreshing: bool

    /** `useState`: no products, loading, no error, not refreshing. */
    constructor ()
      ensures trackedProducts == [] && loading && error == None && !isRefreshing
    {
      trackedProducts := [];
      loading := true;
      error := None;
      isRefreshing := false;
    }

    /**
     * `fetchTrackedAuctions`: the fetches are parameters (Err stands for a
     * thrown error). The list becomes the merge, or empty when nothing is
     * tracked or no details came back; an error is recorded and leaves the
     * list as it was. Loading always ends.
     */
    method FetchTrackedAuctions(bids: Result<seq<BidRecord>, string>,
                                fetchDetails: seq<string> -> Result<DetailsReply, string>)
      modifies this
      ensures !loading && isRefreshing == old(isRefreshing)
      ensures (FetchOutcome(bids, fetchDetails).Ok?)
                ==> trackedProducts == FetchOutcome(bids, fetchDetails).value && error == None
      ensures (FetchOutcome(bids, fetchDetails).Err?)
                ==> trackedProducts == old(trackedProducts) && error == Some(FetchOutcome(bids, fetchDetails).error)
    {
      error := None;
      loading := true;
      match bids {
        case Err(message) =>
          error := Some(message);
        case Ok(bidsData) =>
          var trackedBids := TrackedBids(bidsData);
          if |trackedBids| == 0 {
            trackedProducts := [];
          } else {
            var productsData := fetchDetails(BidUrls(trackedBids));
            match productsData {
              case Err(message) =>
                error := Some(message);
              case Ok(reply) =>
                if !reply.success || |reply.updatedDetails| == 0 {
                  trackedProducts := [];
                } else {
                  trackedProducts := ProductsWithBids(reply.updatedDetails, trackedBids);
                }
            }
          }
      }
      loading := false;
    }

    /**
     * `refreshBidPrices`: ignored while a refresh runs or when nothing is
     * tracked; otherwise the reply's prices are merged in, or its error is
     * recorded and the list kept. The guard is released at the end.
     */
    method RefreshBidPrices(refresh: seq<string> -> Result<RefreshReply, string>)
      modifies this
      ensures (old(isRefreshing) || |old(trackedProducts)| == 0)
                ==> trackedProducts == old(trackedProducts) && error == old(error) && isRefreshing == old(isRefreshing)
      ensures loading == old(loading)
      ensures !(old(isRefreshing) || |old(trackedProducts)| == 0) ==> !isRefreshing
      ensures !(old(isRefreshing) || |old(trackedProducts)| == 0) ==> (
        match refresh(ProductUrls(old(trackedProducts)))
        case Err(message) => trackedProducts == old(trackedProducts) && error == Some(message)
        case Ok(reply) =>
          if !reply.ok then trackedProducts == old(trackedProducts) && error == Some(RefreshFailedMessage)
          else if !reply.success then
            trackedProducts == old(trackedProducts)
            && error == Some(if reply.error != "" then reply.error else RefreshFailedMessage)
          else trackedProducts == RefreshedProducts(old(trackedProducts), reply.updatedBids) && error == old(error))
    {
      if isRefreshing || |trackedProducts| == 0 {
        return;
      }
      isRefreshing := true;
      var response := refresh(ProductUrls(trackedProducts));
      match response {
        case Err(message) =>
          error := Some(message);
        case Ok(data) =>
          if !data.ok {
            error := Some(RefreshFailedMessage);
          } else if !data.success {
            error := Some(if data.error != "" then data.error else RefreshFailedMessage);
          } else {
            trackedProducts := RefreshedProducts(trackedProducts, data.updatedBids);
          }
      }
      isRefreshing := false;
    }
  }
}
