# Buyee auction scraper — a verified model

The repository scrapes listings from the Buyee auction site (`https://buyee.jp`).
It has three scrapers:

- a Playwright scraper (`scrapper.js`);
- a Puppeteer variant of it (`express_backend/scrapper.js`);
- a synchronous Python scraper (`backend/scraper/buyee_scraper.py`).

Two HTTP adapters put them behind routes: an Express server (`app.js`) and a
Flask server (`backend/app.py`). A React front end uses them. It parses search
input (`SearchBar.tsx`), tracks auctions the user has bid on
(`TrackedAuctions.tsx`) and cycles through product images
(`ProductImageCarousel.tsx`).

This project models the deterministic logic under the browser calls:

- how search URLs are built;
- how a listing card becomes a record, and when a card is skipped;
- the selector fallback chains on detail pages and their sentinel texts;
- page-count detection and multi-page collection;
- de-duplicated image collection;
- the bid-file upsert keyed on the product URL;
- the adapters' validation, aggregation, batching and pagination;
- the front end's search-term parser, tracked-auction merges and carousel state.

## How the model is laid out

**The page.** A page is abstracted as a tree of `Dom.Node` values. A node has a
text, attributes, and for each selector the nodes it matches. `querySelector`
is the first match.

**Navigation.** A navigation is a function parameter `goto` from URLs to a page
load. The load either fails (the thrown navigation error) or yields a document.
Waiting for `.itemCard` is modelled as the page having at least one card.

**Shared modules:**

- `Wrappers`: `Option` and `Result`.
- `Strings`: JavaScript `trim`, `split`, `join` and `replace`; Python `replace`; `isdigit` and `int()`; decimal rendering.
- `Json`: request values with JavaScript and Python truthiness and `Number()`.
- `Records`: the record shapes and sentinel texts.
- `SearchUrls`: the URL builders.
- `Fallback`: the selector fallback chains.
- `BidStore`: the bid list and its upsert.
- `Crawl`: the page loop and the detail loop that both JavaScript scrapers share.

**One module per core source file:**

| module | source file |
|---|---|
| `PlaywrightScraper` | `scrapper.js` |
| `PuppeteerScraper` | `express_backend/scrapper.js` |
| `PyScraper` | `backend/scraper/buyee_scraper.py` |
| `FlaskApp` | `backend/app.py` |
| `ApiServer` | `app.js` |
| `SearchBar` | `SearchBar.tsx` |
| `TrackedAuctions` | `TrackedAuctions.tsx` |
| `ImageCarousel` | `ProductImageCarousel.tsx` |

**Imperative code stays imperative.** Loops that push into lists, or that
reassign variables until a `break`, are methods with loop invariants:

- the page and card loops;
- the fallback chains;
- the detail-image loop;
- the term-batching loop;
- the update loop.

Each such method is proved equal to a specification function, and the lemmas
are about that function.

**State that changes in place is a class:**

- the bid file whose list `placeBid` updates (`BidStore.BidFile`);
- the tracked-auctions view state (`TrackedAuctions.TrackedAuctionsView`);
- the carousel state (`ImageCarousel.Carousel`).

**The Python search is modelled as written.** Its item loop sits after the page
loop, so only the cards of the last page visited become records. The model
keeps this behaviour and proves it (`PyScraper.PySearchLastPageOnly`). The
unbound `items` that arises when no page is visited raises and is caught, so
the search returns `[]` in that case.

## Model

| member | source | states |
|---|---|---|
| Strings.TrimIdempotent | scrapper.js:455-456 | trimming an already trimmed text changes nothing, so the second `trim()` in `updateBid` is a no-op |
| Strings.TrimOfPadded | scrapper.js:168-170 | trimming white space around a text with no edge white space gives that text |
| Strings.DecimalRoundTrip | backend/scraper/buyee_scraper.py:59 | `int()` of the decimal rendering of n is n |
| Strings.BeforeFirstIdempotent | scrapper.js:114 | cutting at the first '?' twice is the same as cutting once |
| Strings.SplitJoin | frontend/src/components/SearchBar.tsx:13 | splitting a comma-joined list whose parts hold no comma gives the parts back |
| Strings.JoinSplit | frontend/src/components/SearchBar.tsx:13 | joining the segments of `split(',')` with ',' gives the input back |
| Strings.ReplaceAllMissingChar | backend/scraper/buyee_scraper.py:103-104 | Python `replace` of a pattern holding a character the text lacks leaves the text unchanged |
| Json.NumberOfText | app.js:68 | `Number` of trimmed text: "" is 0; optionally signed decimal digits give their value; an unsigned `0x`/`0o`/`0b` prefix reads base 16/8/2; a number results iff the text has one of these forms |
| Json.NumberOfString | app.js:68 | surrounding white space is ignored: blank text is 0, and a number results iff the trimmed text is a signed decimal or a base-prefixed literal |
| Json.RadixTenIsDecimal | app.js:68 | read in base ten, a decimal digit string has its decimal value |
| Json.NumberOfDecimal | app.js:68 | `Number(String(n)) === n` for every integer n |
| Json.DecimalText | app.js:68 | the rendering of n, read as trimmed text, is n |
| Json.HexExample | app.js:68 | `Number("0x10")` is 16 |
| Json.BinaryExample | app.js:68 | `Number("0b101")` is 5 |
| Json.SignedRadixIsNaN | app.js:68 | `Number("-0x10")` is NaN: no sign before a base prefix |
| Records.AbsoluteUrlShape | scrapper.js:97 | the URL always starts with "http"; an href starting with "http" is kept; any other href gets `https://buyee.jp` prefixed; applying the rule twice changes nothing |
| SearchUrls.QueryParams | scrapper.js:63-67 | the query list has the optional price parameters, then `page=n`, then `translationType=98` |
| SearchUrls.JoinQueryParams | scrapper.js:68 | joining the pushed parameters with '&' gives the query string, prices first |
| SearchUrls.SearchUrlShape | scrapper.js:55-68 | the URL is base + `/item/search/query/` + raw term, then `/category/c` when c is non-empty, then '?' and the query string; the '?' is always there |
| SearchUrls.BuildSearchUrl | express_backend/scrapper.js:40-48 | the step-by-step builder produces exactly that URL |
| SearchUrls.PyQueryParams | backend/scraper/buyee_scraper.py:44-47 | the Python list has the optional prices and ends with `translationType=98` |
| SearchUrls.JoinPyQueryParams | backend/scraper/buyee_scraper.py:48 | joining them with '&' gives the price parts, then the translation flag |
| SearchUrls.PyPageUrlShape | backend/scraper/buyee_scraper.py:43-48 | a page URL is base + `/item/search/query/` + term + '?' + query + `&page=n` |
| SearchUrls.BuildPySearchUrl | backend/scraper/buyee_scraper.py:43-48 | the append-based builder produces exactly the Python search URL |
| Dom.FirstNonEmptyAttr | scrapper.js:220-222 | the `||` chain of attributes gives None iff every attribute is missing or empty; otherwise the first non-empty one, whose predecessors are all missing or empty |
| Fallback.CandidateTexts | scrapper.js:161-166 | one candidate per selector, in order, each the first match's text |
| Fallback.FirstTextChoice | scrapper.js:167-172 | if no candidate has text, the result is the sentinel; otherwise it is the first candidate with non-empty raw text, trimmed (a white-space-only candidate wins and yields "") |
| Fallback.DocumentTitleNeverChosen | scrapper.js:165 | the `document.title` entry never changes the outcome of a chain |
| Fallback.FirstTextPrefix | scrapper.js:175-187 | once some candidate offers text, candidates appended after the chain are never consulted |
| Fallback.SelectText | scrapper.js:175-187 | the `break` loop returns the chain's outcome |
| Fallback.ThumbnailFrom | scrapper.js:217-228 | a chosen thumbnail holds no '?' |
| Fallback.SourceOf | scrapper.js:217-228 | an element's chosen image source, cut at its first '?', holds no '?' |
| Fallback.ThumbnailChoice | scrapper.js:217-228 | when the first k selectors' elements offer no non-empty source, the thumbnail is the source of selector k's element (cut at '?') if it offers one, and None when no selectors remain |
| Fallback.ThumbnailNone | scrapper.js:217-228 | there is no thumbnail exactly when no selector's element offers a non-empty source |
| Fallback.SelectThumbnail | scrapper.js:217-228 | the `break` loop returns that thumbnail |
| BidStore.FindIndex | scrapper.js:374-376 | -1 iff no entry has the URL; otherwise the first index holding it |
| BidStore.UpsertedSpec | scrapper.js:378-384 | an existing URL: its first entry is replaced and the length is kept; a new URL: it is appended and the length grows by one; no other entry changes |
| BidStore.UpsertedKeepsUnique | express_backend/scrapper.js:267-272 | if URLs were unique they stay unique, and the upserted URL is held by exactly one entry |
| BidStore.BidFile.constructor | scrapper.js:365 | the file starts with the given list |
| BidStore.BidFile.Upsert | scrapper.js:378-384 | the in-place upsert leaves the list equal to the upserted list and keeps URLs unique |
| Crawl.VisitSearchPages | express_backend/scrapper.js:39-81 | the page loop (navigate to page n, skip a page without cards, append the page's records, return [] on a thrown navigation) computes the search result of pages 1..totalPages |
| Crawl.CollectPagesFailurePersists | scrapper.js:128-131 | once a navigation has thrown, no later page brings the search back |
| Crawl.SearchFailsOnAnyNavigationError | scrapper.js:71-74 | a thrown navigation on any page 1..totalPages makes the search return [] |
| Crawl.CollectPagesPrefix | scrapper.js:51 | the records of pages 1..k are a prefix of the records of pages 1..n, in page order |
| Crawl.KeepReadSnoc | scrapper.js:88-116 | one more card appends its record, if it yields one |
| Crawl.KeepReadAppend | scrapper.js:88-116 | records follow card order over a concatenation of cards |
| Crawl.KeepReadCount | scrapper.js:93-96 | at most one record per card, and one per card iff no card is skipped |
| Crawl.KeepReadSameUrls | express_backend/scrapper.js:60-77 | two card readers that keep the same cards with the same URLs give records with the same URLs |
| Crawl.KeepReadFrom | scrapper.js:110-115 | every record comes from some card |
| Crawl.DetailsForCount | scrapper.js:142-246 | at most one record per URL, and exactly one per URL when every page loads |
| PlaywrightScraper.CardListingSpec | scrapper.js:89-115 | a card yields a record iff its title link has a non-empty href; the url is absolute; the title is the link text as is; a missing price element gives the sentinel and a present one keeps its text as is; images is empty iff there is no thumbnail element or neither `data-src` nor `src` is non-empty, and otherwise exactly the first non-empty of `data-src`, `src`, cut at '?' |
| PlaywrightScraper.ReadCard | scrapper.js:89-115 | the card body computes that record |
| PlaywrightScraper.ReadCards | scrapper.js:88-116 | the card loop yields the page's records in card order |
| PlaywrightScraper.ScrapeSearchResults | scrapper.js:40-133 | pages 1..totalPages are visited in order; a page with no cards is skipped; a thrown navigation gives [] |
| PlaywrightScraper.DetailProductSpec | scrapper.js:158-236 | the title is the title chain's outcome, the url is the page location, and there is at most one image, without '?' |
| PlaywrightScraper.ExtractDetails | scrapper.js:158-236 | the page script computes that record |
| PlaywrightScraper.ScrapeDetails | scrapper.js:136-256 | one record per URL whose page loads, in URL order; failing URLs are skipped |
| PlaywrightScraper.LocatorTexts | scrapper.js:418-422 | one strict locator text per selector |
| PlaywrightScraper.FirstTextTrimmed | scrapper.js:424-432 | a chain whose sentinel is trimmed has a trimmed outcome |
| PlaywrightScraper.UpdateChainsTrimmed | scrapper.js:453-457 | the refreshed price and time are already trimmed |
| PlaywrightScraper.SentinelsTrimmed | scrapper.js:417 | the sentinels have no edge white space |
| PlaywrightScraper.UpdateBid | scrapper.js:405-468 | the URL is echoed with the price and time chain outcomes, or with the navigation error message |
| PlaywrightScraper.PlaceBid | scrapper.js:258-402 | no "Bid Now" button gives the no-button answer and no store; with a button but no placement the call throws "Failed to place the bid…"; the bid is placed iff there is one button, the timestamp span, one bid input and a non-null amount; the record holds the trimmed timestamp, the title chain and the thumbnail; the message echoes the amount; only a placed bid upserts the list |
| PuppeteerScraper.OrDefault | express_backend/scrapper.js:72-75 | `s \|\| fallback` gives the fallback exactly when s is empty or equals it |
| PuppeteerScraper.MapCards | express_backend/scrapper.js:61-77 | one mapped object per card |
| PuppeteerScraper.PageItemsAsCardLoop | express_backend/scrapper.js:60-77 | mapping then filtering by url equals reading the cards one by one and skipping those without a URL |
| PuppeteerScraper.CardRecordKept | express_backend/scrapper.js:62-76 | a card yields a record iff its title link has a non-empty href; the url is that href made absolute |
| PuppeteerScraper.CardObjectFields | express_backend/scrapper.js:62-76 | the title is the link's trimmed text when non-empty, else "No Title" (also without a link); the price likewise with "Price Not Available"; an image element gives exactly the one entry `(data-src \|\| src)` cut at '?', and no element gives no images |
| PuppeteerScraper.SameCardKept | express_backend/scrapper.js:66-77 | a card is kept here iff the Playwright scraper keeps it, with the same URL |
| PuppeteerScraper.SamePageUrls | express_backend/scrapper.js:60-77 | on any page both scrapers yield records for the same URLs in the same order |
| PuppeteerScraper.ScrapeSearchResults | express_backend/scrapper.js:34-94 | pages visited in order; pages without cards skipped; records appended per page; a thrown navigation gives [] |
| PuppeteerScraper.DetailTitlePriceAgree | express_backend/scrapper.js:106-133 | the title and price agree with the Playwright scraper's on every page |
| PuppeteerScraper.DetailTimeAgree | express_backend/scrapper.js:135-147 | where one of the three shared time selectors offers text, the time agrees with the Playwright scraper's |
| PuppeteerScraper.DetailImagesSpec | express_backend/scrapper.js:149-174 | at most one image, without '?'; the url is the page location |
| PuppeteerScraper.ExtractDetails | express_backend/scrapper.js:106-177 | the page script computes that record |
| PuppeteerScraper.ScrapeDetails | express_backend/scrapper.js:96-192 | one record per URL whose page loads, in order |
| PuppeteerScraper.UpdateBid | express_backend/scrapper.js:289-335 | the URL is echoed with the chain outcomes, or with the navigation error |
| PuppeteerScraper.PlaceBid | express_backend/scrapper.js:194-287 | no button gives the no-button answer; with a button but no placement the call throws "Failed to place the bid…"; placed iff the button, the input and a non-null amount are there; the record's timestamp is the trimmed span text or the sentinel; only a placed bid upserts the list |
| PyScraper.PageNumbers | backend/scraper/buyee_scraper.py:59 | every all-digit link text contributes its value, and nothing else does |
| PyScraper.MaxOf | backend/scraper/buyee_scraper.py:60 | `max` is a member and bounds every element |
| PyScraper.DetectedPagesSpec | backend/scraper/buyee_scraper.py:54-60 | the page count is the largest all-digit pagination link, or 1 without one |
| PyScraper.PageLimit | backend/scraper/buyee_scraper.py:63 | a falsy max_pages keeps the detected count; otherwise the count is the minimum of the two |
| PyScraper.ThumbnailImagesSpec | backend/scraper/buyee_scraper.py:98-105 | at most one thumbnail, `data-src` before `src`, cut at '?'; the suffix removal never fires |
| PyScraper.WithDetailImagesPrefix | backend/scraper/buyee_scraper.py:122-137 | the images already held stay, in place, as a prefix |
| PyScraper.WithDetailImagesUnique | backend/scraper/buyee_scraper.py:135-137 | scanning never introduces a duplicate |
| PyScraper.WithDetailImagesContents | backend/scraper/buyee_scraper.py:122-137 | an image is in the result iff it was already held or is the normalised source of some detail image |
| PyScraper.DetailSourcesAbsolute | backend/scraper/buyee_scraper.py:130-133 | every source taken from the detail images is absolute |
| PyScraper.DetailSourceSpec | backend/scraper/buyee_scraper.py:123-133 | a detail source exists iff one of `href`, `data-src`, `data-thumb`, `src` is set; it is absolute |
| PyScraper.CollectImages | backend/scraper/buyee_scraper.py:122-137 | the append-if-absent loop computes that list |
| PyScraper.ItemProductImages | backend/scraper/buyee_scraper.py:98-144 | a record's images start with the thumbnail, never repeat, and every later image is absolute; a failed detail page keeps the thumbnail |
| PyScraper.ReadItem | backend/scraper/buyee_scraper.py:81-158 | the item body computes the card's record, or skips a card without a title link or href, or a card whose read raises (logged by the per-card handler) |
| PyScraper.ReadItems | backend/scraper/buyee_scraper.py:80-158 | one record per card that has a title link with an href and reads without raising, in card order |
| PyScraper.FailingItemSkipped | backend/scraper/buyee_scraper.py:80-158 | a card whose read raises drops only its own record: the records of the cards before and after it are kept, in order |
| PyScraper.VisitFailurePersists | backend/scraper/buyee_scraper.py:70-75 | a thrown page navigation makes the page loop fail |
| PyScraper.VisitAllLoaded | backend/scraper/buyee_scraper.py:70-78 | with every page loading, the loop ends holding only the last page's cards |
| PyScraper.PySearchLastPageOnly | backend/scraper/buyee_scraper.py:70-80 | the records come from the last page visited only; any failure, or no page to visit, gives [] |
| PyScraper.ScrapeSearchResults | backend/scraper/buyee_scraper.py:36-164 | the method computes the search as the page loop and then the item loop |
| PyScraper.LaterCallsRepeat | backend/scraper/buyee_scraper.py:177 | page numbers at or past the detected count in the `max_pages` position give the same records |
| PyScraper.UntilEmptyExtend | backend/scraper/buyee_scraper.py:177-183 | a call that yields records extends the accumulated result and the loop continues with the next page |
| PyScraper.UntilEmptyStop | backend/scraper/buyee_scraper.py:175-181 | a call that yields nothing, or running past max_pages, ends the result with what was accumulated |
| PyScraper.ScrapeAllPages | backend/scraper/buyee_scraper.py:172-187 | calls 1..max_pages are concatenated in order, stopping at the first empty result |
| FlaskApp.MaxTotalSpec | backend/app.py:157-173 | the match count is at least 0 and at least every per-term total, and is 0 or one of them |
| FlaskApp.AllResultsBlocks | backend/app.py:156-172 | the results are the per-term blocks concatenated in term order |
| FlaskApp.TotalPages | backend/app.py:177 | `(t + 19) // 20` is the ceiling of t/20 for t >= 0, and 0 for 0 |
| FlaskApp.SearchArithmeticExamples | backend/app.py:173-177 | 77069 matches give 3854 pages, 0 give 0, totals [5, 40] give 40 |
| FlaskApp.Outcomes | backend/app.py:159-170 | one answer per term |
| FlaskApp.Search | backend/app.py:146-190 | a non-dict body gives a 500; empty or missing terms give a 400; truthy terms that are not a list, or hold a non-dict, give a 500; success iff terms is a non-empty list of dicts; the success body has the concatenation, the max total and its ceiling page count |
| FlaskApp.PlaceBid | backend/app.py:74-103 | a non-dict body gives a 500; accepted iff `productId` and `amount` are both truthy; a rejection carries the fixed message; the success message echoes both |
| ApiServer.BidRequestValidIff | app.js:68 | the request is valid iff the url is truthy and the amount is a number greater than 0 |
| ApiServer.PlaceBidRoute | app.js:58-97 | a null body or a non-text URL gives a 500; an invalid request gives the 400 message; a page without "Bid Now" gives the scraper's 400 message; a page with one that the scraper cannot place on gives the 500; success iff the scraper places the bid and `data/bids.json` reads, answering with that file's content (not the scraper's list) and the scraper's message; the scraper's bid list becomes the upsert of the placed record exactly when the scraper places it, even when the re-read then fails |
| ApiServer.CeilDiv | app.js:127 | `Math.ceil(a/b)` is the least q with a <= b*q |
| ApiServer.Slice | app.js:143 | `slice` never grows the list, and is the clamped window for 0 <= start <= end |
| ApiServer.CheckTerms | app.js:107-136 | a missing `terms` gives the 400; a list passes iff non-empty; a string passes iff non-empty, one term per character; an object with a falsy `length` gives the 400, a positive numeric `length` crashes at `slice`, and any other truthy `length` runs no batch; a null body crashes |
| ApiServer.BatchesPrefix | app.js:136-143 | the first k batches concatenate to the first k*batchSize terms |
| ApiServer.BatchesCover | app.js:126-143 | the ceil(n/batchSize) batches concatenate to the term list, each holding at most batchSize terms |
| ApiServer.ScrapeEachSpec | app.js:147-163 | the loop completes iff every term can be destructured; then one scraper call per term, in order |
| ApiServer.RunBatches | app.js:136-165 | the batch loops make exactly those calls in term order |
| ApiServer.ScrapeEachNonePersists | app.js:148 | a term that cannot be destructured makes the whole loop throw |
| ApiServer.PaginateSpec | app.js:208-209 | the page is `results[(page-1)*ps .. min(n, page*ps))`, holds at most ps records, and is empty beyond the last page |
| ApiServer.MulNonNegative | app.js:208 | the page start offset is never negative |
| ApiServer.MulMonotone | app.js:208-209 | later pages start at later offsets |
| ApiServer.PaginateAt | app.js:208-209 | position r of page p (0 <= r < pageSize) is record (p - 1) * pageSize + r whenever that record exists |
| ApiServer.PaginatePosition | app.js:208-209 | record k is on page k/ps + 1, at position k mod ps |
| ApiServer.SearchResponseSpec | app.js:207-217 | count is the page length, totalResults the full length, totalPages the ceiling of total/pageSize |
| ApiServer.PageCountSpec | app.js:217-217 | for a positive page size, totalPages is the least n with total <= pageSize * n, i.e. `Math.ceil(total / pageSize)` |
| ApiServer.PageParams | app.js:107-111 | a body without `page` and `pageSize` reads as page 1 of size 100; a numeric field is taken as sent |
| ApiServer.DefaultSearchPage | app.js:107-219 | a request with neither `page` nor `pageSize` gets the first min(100, n) records, page 1, totalResults n and totalPages ceil(n / 100) |
| ApiServer.EntryFor | app.js:344-353 | a thrown refresh records the URL and a non-empty error |
| ApiServer.UpdateBidPrices | app.js:328-372 | a null body gives a 500; a non-array or empty list gives the 400; otherwise one entry per URL in order, with count equal to their number |
| ApiServer.NormalizeBids | app.js:281-283 | an array is returned as is; an object gives its truthy `bids` or []; null crashes |
| ApiServer.NormalizeBidFile | app.js:277-283 | a bid file `{bids: [...]}` normalises to its list, and normalising again changes nothing |
| SearchBar.LastIndex | frontend/src/components/SearchBar.tsx:15 | the last position of ':' or None when there is none |
| SearchBar.LeadingDigits | frontend/src/components/SearchBar.tsx:15 | the greedy `(\d+)?` group: the longest digit prefix |
| SearchBar.RangeGroups | frontend/src/components/SearchBar.tsx:15 | after the colon, the text is either min "-" max or min alone, both digit strings |
| SearchBar.PriceMatch | frontend/src/components/SearchBar.tsx:15 | the match is a suffix starting at the last ':', with digit groups |
| SearchBar.ParseTerm | frontend/src/components/SearchBar.tsx:14-30 | no match gives the trimmed segment with empty prices; prices are digit strings; the keyword is trimmed |
| SearchBar.ParseSegments | frontend/src/components/SearchBar.tsx:13-31 | one parsed term per segment, segment i giving term i |
| SearchBar.ParseSearchTerms | frontend/src/components/SearchBar.tsx:13 | one entry per comma-separated segment, empty ones included |
| SearchBar.LeadingDigitsOf | frontend/src/components/SearchBar.tsx:15 | the digit group stops at the first non-digit |
| SearchBar.ReplaceFirstSuffix | frontend/src/components/SearchBar.tsx:18 | removing the first occurrence of the matched suffix leaves the keyword |
| SearchBar.LastIndexAt | frontend/src/components/SearchBar.tsx:15 | a ':' with none after it is the last one |
| SearchBar.LastColon | frontend/src/components/SearchBar.tsx:15 | in "term:tail" without other colons the match starts at the colon |
| SearchBar.ColonTextNoEdge | frontend/src/components/SearchBar.tsx:14 | a formatted term has no edge white space |
| SearchBar.KeywordOf | frontend/src/components/SearchBar.tsx:18 | the keyword of a formatted term is the term |
| SearchBar.ColonTextTrimmed | frontend/src/components/SearchBar.tsx:14 | trimming a formatted term changes nothing |
| SearchBar.PriceMatchOfColonText | frontend/src/components/SearchBar.tsx:15 | a formatted term matches at its colon |
| SearchBar.RangeGroupsOf | frontend/src/components/SearchBar.tsx:21-22 | "min-max" and "min" give their groups |
| SearchBar.ParseFormat | frontend/src/components/SearchBar.tsx:13-30 | parsing "term:min-max" gives the term back |
| SearchBar.ParseFormatMinOnly | frontend/src/components/SearchBar.tsx:15-22 | parsing "term:min" gives min and an empty max |
| SearchBar.ParseJoinedTerms | frontend/src/components/SearchBar.tsx:13-31 | parsing a comma-joined list of formatted terms gives the list back |
| SearchBar.ExampleRange | frontend/src/components/SearchBar.tsx:15-23 | "gucci:500-1000" gives gucci, 500, 1000 |
| SearchBar.ExampleMinOnly | frontend/src/components/SearchBar.tsx:15-22 | "shoes:200" gives min 200 and an empty max |
| SearchBar.ExampleMaxOnly | frontend/src/components/SearchBar.tsx:15-22 | "kw:-300" gives an empty min and max 300 |
| SearchBar.SegmentsKept | frontend/src/components/SearchBar.tsx:13 | the first segment is parsed on its own and the rest follow, in order |
| SearchBar.SingleSegment | frontend/src/components/SearchBar.tsx:13 | text without a comma is one segment |
| SearchBar.EmptyInput | frontend/src/components/SearchBar.tsx:13 | empty input gives one empty term |
| TrackedAuctions.TrackedBidsMembers | frontend/src/components/TrackedAuctions.tsx:31 | exactly the bids of amount 999 are kept |
| TrackedAuctions.TrackedBidsAppend | frontend/src/components/TrackedAuctions.tsx:31 | the filter keeps the original order |
| TrackedAuctions.TrackedBidsIdempotent | frontend/src/components/TrackedAuctions.tsx:31 | filtering twice is filtering once |
| TrackedAuctions.MatchingBid | frontend/src/components/TrackedAuctions.tsx:68 | `find` gives the first bid for the url, or None iff no bid names it |
| TrackedAuctions.ProductsWithBidsSpec | frontend/src/components/TrackedAuctions.tsx:67-75 | the merge keeps length and order and the url, price and time; the amount is 999 iff a tracked bid names the url, else 0; the title is the first matching tracked bid's title when non-empty, else the product's; the images are that bid's `[thumbnailUrl]` when non-empty, else the product's |
| TrackedAuctions.WithBidUnmatched | frontend/src/components/TrackedAuctions.tsx:71-73 | a product with no matching bid keeps its fields, with amount 0 |
| TrackedAuctions.FindUpdate | frontend/src/components/TrackedAuctions.tsx:120 | the first update for the url, or None iff none names it |
| TrackedAuctions.RefreshedProductsSpec | frontend/src/components/TrackedAuctions.tsx:119-126 | the refresh keeps length and order, changes only price and time, leaves unmatched products alone, and a second refresh changes nothing |
| TrackedAuctions.TrackedAuctionsView.constructor | frontend/src/components/TrackedAuctions.tsx:14-17 | empty list, loading, no error, not refreshing |
| TrackedAuctions.TrackedAuctionsView.FetchTrackedAuctions | frontend/src/components/TrackedAuctions.tsx:19-86 | loading ends; no tracked bids or no details empty the list; otherwise the list is the merge; an error sets the message |
| TrackedAuctions.TrackedAuctionsView.RefreshBidPrices | frontend/src/components/TrackedAuctions.tsx:88-134 | nothing changes while refreshing or with an empty list; otherwise refreshing ends and the list is refreshed or the error is set |
| ImageCarousel.Next | frontend/src/components/ProductImageCarousel.tsx:54 | the index stays in [0, len) |
| ImageCarousel.Prev | frontend/src/components/ProductImageCarousel.tsx:59 | the index stays in [0, len) |
| ImageCarousel.NextPrevInverse | frontend/src/components/ProductImageCarousel.tsx:52-60 | next and prev undo each other |
| ImageCarousel.NextTimesNoWrap | frontend/src/components/ProductImageCarousel.tsx:54 | before the end, k nexts add k |
| ImageCarousel.NextTimesCompose | frontend/src/components/ProductImageCarousel.tsx:54 | a+b nexts are a nexts then b nexts |
| ImageCarousel.FullRound | frontend/src/components/ProductImageCarousel.tsx:54 | len nexts return to the start |
| ImageCarousel.PartitionAppend | frontend/src/components/ProductImageCarousel.tsx:25-31 | filtering distributes over concatenation, so each list keeps the input order |
| ImageCarousel.PartitionCount | frontend/src/components/ProductImageCarousel.tsx:25-31 | the two lists together are a permutation of the sources |
| ImageCarousel.PartitionMembers | frontend/src/components/ProductImageCarousel.tsx:25-31 | every result with a given outcome has its source in that outcome's list |
| ImageCarousel.PartitionOrigins | frontend/src/components/ProductImageCarousel.tsx:25-31 | each listed source comes from a result with that outcome |
| ImageCarousel.Carousel.constructor | frontend/src/components/ProductImageCarousel.tsx:5-7 | index 0, no loaded images, no errors |
| ImageCarousel.Carousel.Available | frontend/src/components/ProductImageCarousel.tsx:53 | exactly the loaded images when any, else exactly the given images |
| ImageCarousel.Carousel.Preload | frontend/src/components/ProductImageCarousel.tsx:9-50 | with images, the lists become the partition of the load results; without images nothing changes |
| ImageCarousel.Carousel.NextImage | frontend/src/components/ProductImageCarousel.tsx:52-55 | the index advances cyclically over the available list and stays in range |
| ImageCarousel.Carousel.PrevImage | frontend/src/components/ProductImageCarousel.tsx:57-60 | the index steps back cyclically and stays in range |
| ImageCarousel.Carousel.Render | frontend/src/components/ProductImageCarousel.tsx:62-108 | no images renders the placeholder; otherwise one dot per available image and the current image |

## Left out

- Browser calls are parameters: `goto` gives the loaded page or the navigation error. Launching, contexts, waits, timeouts, cookies and storage state, and `click`/`fill`/`type` have no model. The bid form is modelled only through the elements it needs.
- Waiting for `.itemCard` is modelled as the page having at least one card; a timeout is not modelled.
- `innerText` and `textContent` are both the node's text. The `.href` and `.src` properties are the attribute values; the browser's URL resolution is not modelled.
- File I/O is not modelled: the `search.json` writes, reading and writing the scraper's `bids.json` around the upsert (the upsert is on an in-memory list), the file read-back in app.js:172-198, and backend/scraper/html_downloader.py. The `data/bids.json` that `/place-bid` answers with is a parameter holding its parsed content.
- Login flows, express_backend/saveLogin.js, express_backend/scrapeDetails.js and the `/login` and `/details` routes of app.js are not part of this model.
- HTTP, CORS and middleware wiring and express_backend/app.js are not part of this model.
- Sleeps, timers, the global search timeout and the 30-second refresh interval are not modelled. The interval's callback is the first render's `refreshBidPrices`, whose `trackedProducts` is still `[]`, so as written the automatic refresh returns at TrackedAuctions.tsx:89 every time; only the manual refresh is modelled.
- The adapters' scraper calls do not fit the scrapers they call: backend/app.py:165-170 expects a tuple, and app.js:153-162 treats the record list as a file path. The aggregation and batching are modelled over an abstract per-term scraper.
- backend/app.py `get_bids` and `get_products` are not modelled: they rely on missing imports and a method that does not exist.
- ProductGrid.tsx, ProductCard.tsx and the other UI, routing and config files are not part of this model: they rest on floating point and locale comparison, or hold no logic.
- Preloading runs asynchronously; it is modelled as a function from each source to its load outcome, applied at once.
- Numbers are integers; floating point is not modelled.
- Json.NumberOfString (through Json.NumberOfText): text with a fraction or an exponent ("5.0", "1e3", "1.5") and "Infinity" read as NaN, because values are integers here; so ApiServer.BidRequestValid rejects an amount written that way, which app.js:68 accepts.
- Python `str()` of lists and dicts renders as a placeholder. `isdigit` covers ASCII digits only.
- A thumbnail chain that finds nothing gives None; JavaScript's `null` and `""` are not told apart there.
- A detail page can fail only at navigation. Other exceptions inside the page scripts are not modelled.
- Which search-result cards raise while they are read (a detached element, a failing `inner_text`) is a parameter of the Python scraper, `broken`; its causes are not modelled.
- ApiServer.SearchResponse: non-numeric `page` or `pageSize` values (a string, `null`) are not modelled; `ApiServer.PageParams` gives None for them, because JavaScript's coercions in the slice arithmetic are out of scope.
- TrackedAuctions.TrackedAuctionsView.RefreshBidPrices: updates are records with a price and a time; error entries without them are not modelled.
- ImageCarousel.Carousel.Render: an index left out of range after a preload shrinks the list renders no image (`src` None), where the browser shows a broken image.
- ApiServer.PlaceBidRoute: the content of `data/bids.json` is a parsed JSON value or None (missing or unparsable); how it relates to earlier bids is not modelled, since no code in the core writes that file.
- ApiServer.RunBatches: the scraper is a parameter, so the per-term records are whatever it returns.
