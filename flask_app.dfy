/**
 * backend/app.py: the Flask adapter. `search` asks the scraper once per
 * search term and aggregates the answers; `place_bid` validates the request
 * and echoes it. The scraper call is a parameter: its own result shape is
 * not what this adapter expects, so only the aggregation is modelled.
 */
module FlaskApp {
  import opened Json

  /** Python `d.get(key, default)` on a dict. */
  function Get(d: Value, key: string, default: Value): Value
    requires d.Obj?
  {
    if key in d.fields then d.fields[key] else default
  }

  // ---------------------------------------------------------------------
  // search
  // ---------------------------------------------------------------------

  /** What the scraper answers for one term: its records and its match count. */
  datatype TermResult = TermResult(results: seq<Value>, total: int)

  /** The scraper, called as `scrape_search_results(term=, min_price=, max_price=, page=)`. */
  type Scrape = (Value, Value, Value, Value) -> TermResult

  datatype SearchResponse =
    | SearchOk(results: seq<Value>, totalMatches: int, totalPages: int)
    | SearchBadRequest(error: string)  // status 400
    | SearchFailed                     // status 500: an exception was raised

  const NoTermsError: string := "No search terms provided"

  /** One term's answer: missing `term`, `minPrice` and `maxPrice` fields default to ''. */
  function TermOutcome(searchTerm: Value, page: Value, scrape: Scrape): TermResult
    requires searchTerm.Obj?
  {
    scrape(Get(searchTerm, "term", Str("")), Get(searchTerm, "minPrice", Str("")),
           Get(searchTerm, "maxPrice", Str("")), page)
  }

  /** Every term's results, concatenated in term order. */
  function AllResults(outcomes: seq<TermResult>): seq<Value> {
    if outcomes == [] then []
    else AllResults(outcomes[..|outcomes| - 1]) + outcomes[|outcomes| - 1].results
  }

  /** `max(total_matches, term_total)` folded from 0. */
  function MaxTotal(outcomes: seq<TermResult>): int {
    if outcomes == [] then 0
    else
      var before := MaxTotal(outcomes[..|outcomes| - 1]);
      var t := outcomes[|outcomes| - 1].total;
      if before >= t then before else t
  }

  /**
   * The match count is the largest of 0 and the per-term totals (not their
   * sum): at least every total, and either 0 or one of them.
   */
  lemma {:induction false} MaxTotalSpec(outcomes: seq<TermResult>)
    ensures MaxTotal(outcomes) >= 0
    ensures forall i :: 0 <= i < |outcomes| ==> outcomes[i].total <= MaxTotal(outcomes)
    ensures MaxTotal(outcomes) == 0 || exists i :: 0 <= i < |outcomes| && outcomes[i].total == MaxTotal(outcomes)
  {
    if outcomes != [] {
      var n := |outcomes| - 1;
      MaxTotalSpec(outcomes[..n]);
      assert forall i :: 0 <= i < n ==> outcomes[..n][i] == outcomes[i];
      if MaxTotal(outcomes) != 0 && MaxTotal(outcomes) != outcomes[n].total {
        var i :| 0 <= i < n && outcomes[..n][i].total == MaxTotal(outcomes[..n]);
        assert outcomes[i].total == MaxTotal(outcomes);
      }
    }
  }

  /** Every term's records appear, in term order, as consecutive blocks. */
  lemma {:induction false} AllResultsBlocks(outcomes: seq<TermResult>, k: int)
    requires 0 <= k <= |outcomes|
    ensures AllResults(outcomes) == AllResults(outcomes[..k]) + AllResults(outcomes[k..])
    decreases |outcomes| - k
  {
    if k < |outcomes| {
      var n := |outcomes| - 1;
      if k < n {
        AllResultsBlocks(outcomes[..n], k);
        assert outcomes[..n][..k] == outcomes[..k];
        assert outcomes[k..][..|outcomes[k..]| - 1] == outcomes[..n][k..];
      } else {
        assert outcomes[k..][..0] == [];
        assert outcomes[..k] == outcomes[..n];
      }
    } else {
      assert outcomes[..k] == outcomes;
      assert outcomes[k..] == [];
    }
  }

  /** `(total_matches + 19) // 20`: the number of 20-record pages that hold the matches. */
  function TotalPages(totalMatches: int): (pages: int)
    ensures totalMatches >= 0 ==> pages >= 0 && totalMatches <= 20 * pages < totalMatches + 20
    ensures totalMatches == 0 ==> pages == 0
    ensures totalMatches > 0 ==> 20 * (pages - 1) < totalMatches <= 20 * pages
  {
    (totalMatches + 19) / 20
  }

  lemma SearchArithmeticExamples()
    ensures TotalPages(77069) == 3854
    ensures TotalPages(0) == 0
    ensures MaxTotal([TermResult([], 5), TermResult([], 40)]) == 40
  {
    assert [TermResult([], 5), TermResult([], 40)][..1] == [TermResult([], 5)];
  }

  /** Each term's answer, in term order. */
  function Outcomes(items: seq<Value>, page: Value, scrape: Scrape): (outs: seq<TermResult>)
    requires forall i :: 0 <= i < |items| ==> items[i].Obj?
    ensures |outs| == |items|
  {
    seq(|items|, i requires 0 <= i < |items| && items[i].Obj? => TermOutcome(items[i], page, scrape))
  }

  /**
   * `search()` on the request body `data`: an empty or missing `terms` list is
   * a 400; a body that is not a dict, a `terms` value that is not a list, or a
   * term that is not a dict raises, giving a 500; otherwise the results are
   * concatenated, the match count is the largest total, and the page count is
   * its ceiling over 20.
   */
  method Search(data: Value, scrape: Scrape) returns (r: SearchResponse)
    ensures !data.Obj? ==> r == SearchFailed
    ensures data.Obj? && !PyTruthy(Get(data, "terms", Arr([]))) ==> r == SearchBadRequest(NoTermsError)
    ensures data.Obj? && PyTruthy(Get(data, "terms", Arr([])))
            && (!Get(data, "terms", Arr([])).Arr?
                || exists i :: 0 <= i < |Get(data, "terms", Arr([])).items| && !Get(data, "terms", Arr([])).items[i].Obj?)
            ==> r == SearchFailed
    ensures r.SearchOk? <==>
              && data.Obj?
              && Get(data, "terms", Arr([])).Arr?
              && Get(data, "terms", Arr([])).items != []
              && forall i :: 0 <= i < |Get(data, "terms", Arr([])).items| ==> Get(data, "terms", Arr([])).items[i].Obj?
    ensures r.SearchOk? ==>
              var outs := Outcomes(Get(data, "terms", Arr([])).items, Get(data, "page", Num(1)), scrape);
              && r.results == AllResults(outs)
              && r.totalMatches == MaxTotal(outs)
              && r.totalPages == TotalPages(r.totalMatches)
  {
    if !data.Obj? {
      return SearchFailed;
    }
    var searchTerms := Get(data, "terms", Arr([]));
    var page := Get(data, "page", Num(1));
    if !PyTruthy(searchTerms) {
      return SearchBadRequest(NoTermsError);
    }
    if !searchTerms.Arr? {
      // dicts and strings iterate to strings, whose `.get` raises; other values do not iterate
      return SearchFailed;
    }
    var items := searchTerms.items;
    var allResults: seq<Value> := [];
    var totalMatches := 0;
    for i := 0 to |items|
      invariant forall k :: 0 <= k < i ==> items[k].Obj?
      invariant allResults == AllResults(Outcomes(items[..i], page, scrape))
      invariant totalMatches == MaxTotal(Outcomes(items[..i], page, scrape))
    {
      var searchTerm := items[i];
      if !searchTerm.Obj? {
        return SearchFailed;
      }
      var outcome := scrape(Get(searchTerm, "term", Str("")), Get(searchTerm, "minPrice", Str("")),
                            Get(searchTerm, "maxPrice", Str("")), page);
      assert Outcomes(items[..i + 1], page, scrape)[..i] == Outcomes(items[..i], page, scrape);
      allResults := allResults + outcome.results;
      totalMatches := if totalMatches >= outcome.total then totalMatches else outcome.total;
    }
    assert items[..|items|] == items;
    r := SearchOk(allResults, totalMatches, TotalPages(totalMatches));
  }

  // ---------------------------------------------------------------------
  // place_bid
  // ---------------------------------------------------------------------

  datatype BidReply =
    | BidAccepted(message: string)   // {"success": True, ...}
    | BidRejected(message: string)   // status 400
    | BidCrashed                     // status 500: the body is not a dict

  const MissingBidFields: string := "Product URL and bid amount are required"

  /**
   * `place_bid()`: accepted exactly when the body is a dict whose `productId`
   * and `amount` are both truthy in Python's sense, with a message that
   * echoes them; a missing or falsy field is a 400.
   */
  function PlaceBid(data: Value): (r: BidReply)
    ensures r.BidCrashed? <==> !data.Obj?
    ensures r.BidAccepted? <==> data.Obj? && PyTruthy(Get(data, "productId", Null)) && PyTruthy(Get(data, "amount", Null))
    ensures r.BidRejected? ==> r.message == MissingBidFields
    ensures r.BidAccepted? ==>
      r.message == "Bid of " + PyStr(Get(data, "amount", Null)) + " placed on " + PyStr(Get(data, "productId", Null))
  {
    if !data.Obj? then BidCrashed
    else
      var productUrl := Get(data, "productId", Null);
      var bidAmount := Get(data, "amount", Null);
      if !PyTruthy(productUrl) || !PyTruthy(bidAmount) then BidRejected(MissingBidFields)
      else BidAccepted("Bid of " + PyStr(bidAmount) + " placed on " + PyStr(productUrl))
  }
}
