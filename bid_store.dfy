/**
 * The bid list kept in `bids.json` by both JavaScript scrapers' `placeBid`:
 * the entry for a product URL is replaced in place when one exists,
 * otherwise the new entry is appended. Only the in-memory list is modelled.
 */
module BidStore {
  import opened Wrappers
  import Json

  /** `{productUrl, bidAmount, timestamp, title, thumbnailUrl}`. */
  datatype BidRecord = BidRecord(
    productUrl: string,
    bidAmount: Json.Value,
    timestamp: string,
    title: string,
    thumbnailUrl: Option<string>)

  /** `bids.findIndex(bid => bid.productUrl === url)`: the first matching index, or -1. */
  function FindIndex(bids: seq<BidRecord>, url: string): (k: int)
    ensures -1 <= k < |bids|
    ensures k == -1 <==> forall i :: 0 <= i < |bids| ==> bids[i].productUrl != url
    ensures k >= 0 ==> bids[k].productUrl == url && forall i :: 0 <= i < k ==> bids[i].productUrl != url
  {
    if bids == [] then -1
    else if bids[0].productUrl == url then 0
    else
      var k := FindIndex(bids[1..], url);
      if k == -1 then -1 else k + 1
  }

  /** The list after the upsert of `details`. */
  function Upserted(bids: seq<BidRecord>, details: BidRecord): seq<BidRecord> {
    var k := FindIndex(bids, details.productUrl);
    if k != -1 then bids[k := details] else bids + [details]
  }

  /** No two entries share a product URL. */
  predicate UniqueUrls(bids: seq<BidRecord>) {
    forall i, j :: 0 <= i < j < |bids| ==> bids[i].productUrl != bids[j].productUrl
  }

  /**
   * Upsert: when an entry has the same product URL, the first such entry is
   * replaced and the length is unchanged; otherwise the new entry is appended.
   * No other entry changes, and the new entry is then the first one with its URL.
   */
  lemma UpsertedSpec(bids: seq<BidRecord>, details: BidRecord)
    ensures (exists i :: 0 <= i < |bids| && bids[i].productUrl == details.productUrl)
              ==> |Upserted(bids, details)| == |bids|
    ensures (forall i :: 0 <= i < |bids| ==> bids[i].productUrl != details.productUrl)
              ==> Upserted(bids, details) == bids + [details]
    ensures FindIndex(Upserted(bids, details), details.productUrl) >= 0
    ensures Upserted(bids, details)[FindIndex(Upserted(bids, details), details.productUrl)] == details
    ensures forall i :: 0 <= i < |bids| && i != FindIndex(bids, details.productUrl)
              ==> Upserted(bids, details)[i] == bids[i]
  {
    var url := details.productUrl;
    var k := FindIndex(bids, url);
    var r := Upserted(bids, details);
    var at := if k != -1 then k else |bids|;
    assert r[at] == details;
    assert forall i :: 0 <= i < at ==> r[i].productUrl != url;
    var k' := FindIndex(r, url);
    assert k' != -1;
    assert k' == at;
  }

  /** Upserting keeps product URLs unique, and the upserted URL is then held by exactly one entry. */
  lemma UpsertedKeepsUnique(bids: seq<BidRecord>, details: BidRecord)
    requires UniqueUrls(bids)
    ensures UniqueUrls(Upserted(bids, details))
    ensures var r := Upserted(bids, details);
      forall i :: 0 <= i < |r| && r[i].productUrl == details.productUrl ==> r[i] == details
  {
  }

  /** The `bidFileData` object read from `bids.json`, whose `bids` list `placeBid` updates in place. */
  class BidFile {
    var bids: seq<BidRecord>

    constructor (initial: seq<BidRecord>)
      ensures bids == initial
    {
      bids := initial;
    }

    /** `bids[existingIndex] = bidDetails` when found, else `bids.push(bidDetails)`. */
    method Upsert(details: BidRecord)
      modifies this
      ensures bids == Upserted(old(bids), details)
      ensures UniqueUrls(old(bids)) ==> UniqueUrls(bids)
    {
      var existingIndex := FindIndex(bids, details.productUrl);
      if existingIndex != -1 {
        bids := bids[existingIndex := details];
      } else {
        bids := bids + [details];
      }
      if UniqueUrls(old(bids)) {
        UpsertedKeepsUnique(old(bids), details);
      }
    }
  }

  /** What placing a bid yields: `{success: true, message, details}`, `{success: false, message}`, or the error thrown. */
  datatype BidOutcome =
    | Placed(message: string, details: BidRecord)
    | NoBidButton(message: string)
    | BidError(message: string)
}
