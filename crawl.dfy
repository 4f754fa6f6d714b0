/**
 * The page loops both browser scrapers share: search pages 1..totalPages are
 * visited in order and their records concatenated; detail pages are visited
 * URL by URL. What each scraper reads from a page is a parameter.
 */
module Crawl {
  import opened Wrappers
  import opened Dom
  import opened Records
  import opened SearchUrls

  const ItemCard: string := ".itemCard"
  const TitleLink: string := ".itemCard__itemName a"
  const ThumbnailImage: string := ".g-thumbnail__image"
  const PriceTag: string := ".g-price"
  /** The card image source: `data-src`, else `src`. */
  const CardImageAttrs: seq<string> := ["data-src", "src"]

  /** The URL requested for page `page`. */
  function PageUrl(term: string, minPrice: string, maxPrice: string, category: string, page: int): string {
    SearchUrl(term, category, minPrice, maxPrice, page)
  }

  /**
   * The records collected over pages 1..n in page order, or None once a
   * navigation has thrown (the whole search then returns []). A page whose
   * `.itemCard` elements never appear is skipped; otherwise `extract` reads
   * its cards.
   */
  function CollectPages(term: string, minPrice: string, maxPrice: string, category: string,
                        goto: string -> PageLoad, extract: seq<Node> -> seq<Listing>, n: int)
    : Option<seq<Listing>>
    decreases n
  {
    if n < 1 then Some([])
    else
      var acc := CollectPages(term, minPrice, maxPrice, category, goto, extract, n - 1);
      if acc.None? then None
      else
        var load := goto(PageUrl(term, minPrice, maxPrice, category, n));
        if load.NavigationFailed? then None
        else
          var items := QueryAll(load.doc, ItemCard);
          if items == [] then acc else Some(acc.value + extract(items))
  }

  /** What `scrapeSearchResults` returns: the collected records, or [] after a thrown error. */
  function SearchResults(term: string, minPrice: string, maxPrice: string, category: string,
                         totalPages: int, goto: string -> PageLoad, extract: seq<Node> -> seq<Listing>)
    : seq<Listing>
  {
    CollectPages(term, minPrice, maxPrice, category, goto, extract, totalPages).GetOr([])
  }

  /** One more page that loads: its cards' records are appended, or nothing when it has no cards. */
  lemma CollectPagesStep(term: string, minPrice: string, maxPrice: string, category: string,
                         goto: string -> PageLoad, extract: seq<Node> -> seq<Listing>, n: int, acc: seq<Listing>)
    requires n >= 1
    requires CollectPages(term, minPrice, maxPrice, category, goto, extract, n - 1) == Some(acc)
    requires goto(PageUrl(term, minPrice, maxPrice, category, n)).Loaded?
    ensures var items := QueryAll(goto(PageUrl(term, minPrice, maxPrice, category, n)).doc, ItemCard);
            CollectPages(term, minPrice, maxPrice, category, goto, extract, n)
            == if items == [] then Some(acc) else Some(acc + extract(items))
  {
  }

  /**
   * The page loop of a scraper whose page script reads all cards at once:
   * for each page 1..totalPages build its URL, navigate, skip the page when
   * no `.itemCard` appears, and append what `extract` returns for the cards.
   */
  method VisitSearchPages(term: string, minPrice: string, maxPrice: string, category: string,
                          totalPages: int, goto: string -> PageLoad, extract: seq<Node> -> seq<Listing>)
    returns (allProducts: seq<Listing>)
    ensures allProducts == SearchResults(term, minPrice, maxPrice, category, totalPages, goto, extract)
  {
    allProducts := [];
    var currentPage := 1;
    while currentPage <= totalPages
      invariant 1 <= currentPage <= if totalPages < 1 then 1 else totalPages + 1
      invariant CollectPages(term, minPrice, maxPrice, category, goto, extract, currentPage - 1) == Some(allProducts)
    {
      var searchUrl := BuildSearchUrl(term, minPrice, maxPrice, category, currentPage);
      var load := goto(searchUrl);
      if load.NavigationFailed? {
        CollectPagesFailurePersists(term, minPrice, maxPrice, category, goto, extract, currentPage, totalPages);
        return [];
      }
      CollectPagesStep(term, minPrice, maxPrice, category, goto, extract, currentPage, allProducts);
      var cards := QueryAll(load.doc, ItemCard);
      if cards == [] {
        currentPage := currentPage + 1;
        continue;
      }
      var items := extract(cards);
      allProducts := allProducts + items;
      currentPage := currentPage + 1;
    }
    if totalPages < 1 {
      assert CollectPages(term, minPrice, maxPrice, category, goto, extract, totalPages) == Some([]);
    } else {
      assert currentPage - 1 == totalPages;
    }
  }

  /** Once a navigation has thrown, no later page can bring the search back. */
  lemma {:induction false} CollectPagesFailurePersists(term: string, minPrice: string, maxPrice: string,
      category: string, goto: string -> PageLoad, extract: seq<Node> -> seq<Listing>, k: int, n: int)
    requires k <= n
    requires CollectPages(term, minPrice, maxPrice, category, goto, extract, k).None?
    ensures CollectPages(term, minPrice, maxPrice, category, goto, extract, n).None?
    decreases n - k
  {
    if k < n {
      CollectPagesFailurePersists(term, minPrice, maxPrice, category, goto, extract, k, n - 1);
    }
  }

  /** If navigation to any page 1..totalPages throws, the search returns no records at all. */
  lemma SearchFailsOnAnyNavigationError(term: string, minPrice: string, maxPrice: string, category: string,
      totalPages: int, goto: string -> PageLoad, extract: seq<Node> -> seq<Listing>, k: int)
    requires 1 <= k <= totalPages
    requires goto(PageUrl(term, minPrice, maxPrice, category, k)).NavigationFailed?
    ensures SearchResults(term, minPrice, maxPrice, category, totalPages, goto, extract) == []
  {
    CollectPagesFailurePersists(term, minPrice, maxPrice, category, goto, extract, k, totalPages);
  }

  /**
   * Pages are visited in increasing order: the records gathered over the first
   * k pages are a prefix of those gathered over n >= k pages.
   */
  lemma {:induction false} CollectPagesPrefix(term: string, minPrice: string, maxPrice: string,
      category: string, goto: string -> PageLoad, extract: seq<Node> -> seq<Listing>, k: int, n: int)
    requires k <= n
    requires CollectPages(term, minPrice, maxPrice, category, goto, extract, n).Some?
    ensures CollectPages(term, minPrice, maxPrice, category, goto, extract, k).Some?
    ensures CollectPages(term, minPrice, maxPrice, category, goto, extract, k).value
            <= CollectPages(term, minPrice, maxPrice, category, goto, extract, n).value
    decreases n - k
  {
    if k < n {
      CollectPagesPrefix(term, minPrice, maxPrice, category, goto, extract, k, n - 1);
    }
  }

  /** What one page's card loop yields: `read` of each card that is not skipped, in card order. */
  function KeepRead<T>(cards: seq<Node>, read: Node -> Option<T>): seq<T> {
    if cards == [] then []
    else
      var out := read(cards[|cards| - 1]);
      KeepRead(cards[..|cards| - 1], read) + (if out.Some? then [out.value] else [])
  }

  /** Appending one card appends its record, if any. */
  lemma KeepReadSnoc<T>(cards: seq<Node>, card: Node, read: Node -> Option<T>)
    ensures KeepRead(cards + [card], read)
            == KeepRead(cards, read) + (if read(card).Some? then [read(card).value] else [])
  {
    assert (cards + [card])[..|cards|] == cards;
  }

  /** Records follow card order: the records of `a + b` are those of `a` followed by those of `b`. */
  lemma {:induction false} KeepReadAppend<T>(a: seq<Node>, b: seq<Node>, read: Node -> Option<T>)
    ensures KeepRead(a + b, read) == KeepRead(a, read) + KeepRead(b, read)
    decreases |b|
  {
    if b == [] {
      assert a + b == a;
    } else {
      var b' := b[..|b| - 1];
      assert (a + b)[..|a + b| - 1] == a + b';
      assert (a + b)[|a + b| - 1] == b[|b| - 1];
      KeepReadAppend(a, b', read);
    }
  }

  /**
   * A skipped card contributes nothing, so a page never yields more records
   * than cards, and yields one per card exactly when no card is skipped.
   */
  lemma {:induction false} KeepReadCount<T>(cards: seq<Node>, read: Node -> Option<T>)
    ensures |KeepRead(cards, read)| <= |cards|
    ensures |KeepRead(cards, read)| == |cards| <==> forall i :: 0 <= i < |cards| ==> read(cards[i]).Some?
  {
    if cards != [] {
      var n := |cards| - 1;
      KeepReadCount(cards[..n], read);
      assert forall i :: 0 <= i < n ==> cards[..n][i] == cards[i];
    }
  }

  /**
   * Two card readers that skip the same cards and agree on the URL of every
   * card they keep yield records with the same URLs, in the same order.
   */
  lemma {:induction false} KeepReadSameUrls(cards: seq<Node>, r1: Node -> Option<Listing>, r2: Node -> Option<Listing>)
    requires forall i :: 0 <= i < |cards| ==> (r1(cards[i]).Some? <==> r2(cards[i]).Some?)
    requires forall i :: 0 <= i < |cards| && r1(cards[i]).Some? ==> r1(cards[i]).value.url == r2(cards[i]).value.url
    ensures |KeepRead(cards, r1)| == |KeepRead(cards, r2)|
    ensures forall j :: 0 <= j < |KeepRead(cards, r1)| ==> KeepRead(cards, r1)[j].url == KeepRead(cards, r2)[j].url
  {
    if cards != [] {
      var n := |cards| - 1;
      assert forall i :: 0 <= i < n ==> cards[..n][i] == cards[i];
      KeepReadSameUrls(cards[..n], r1, r2);
    }
  }

  /** Every record comes from some card of the page. */
  lemma {:induction false} KeepReadFrom<T>(cards: seq<Node>, read: Node -> Option<T>, j: int)
    requires 0 <= j < |KeepRead(cards, read)|
    ensures exists i :: 0 <= i < |cards| && read(cards[i]) == Some(KeepRead(cards, read)[j])
  {
    var n := |cards| - 1;
    var before := KeepRead(cards[..n], read);
    if j < |before| {
      KeepReadFrom(cards[..n], read, j);
      var i :| 0 <= i < n && read(cards[..n][i]) == Some(before[j]);
      assert read(cards[i]) == Some(KeepRead(cards, read)[j]);
    } else {
      assert read(cards[n]) == Some(KeepRead(cards, read)[j]);
    }
  }

  /** The records `scrapeDetails(urls)` returns: one per URL whose page loaded, in URL order. */
  function DetailsFor(urls: seq<string>, goto: string -> DetailLoad, read: (string, Node) -> Product)
    : seq<Product>
  {
    if urls == [] then []
    else
      var load := goto(urls[|urls| - 1]);
      DetailsFor(urls[..|urls| - 1], goto, read)
        + (if load.DetailLoaded? then [read(load.location, load.doc)] else [])
  }

  /**
   * A page that fails to load is skipped without affecting the others: there
   * is at most one record per URL, and exactly one per URL when every page loads.
   */
  lemma {:induction false} DetailsForCount(urls: seq<string>, goto: string -> DetailLoad, read: (string, Node) -> Product)
    ensures |DetailsFor(urls, goto, read)| <= |urls|
    ensures (forall i :: 0 <= i < |urls| ==> goto(urls[i]).DetailLoaded?) ==> |DetailsFor(urls, goto, read)| == |urls|
  {
    if urls != [] {
      DetailsForCount(urls[..|urls| - 1], goto, read);
    }
  }
}
