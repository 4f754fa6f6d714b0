/**
 * Search-URL construction. Both JavaScript scrapers build
 * base + "/item/search/query/" + term [+ "/category/" + category] + "?" + params
 * with the params pushed in a fixed order; the Python scraper builds the same
 * path without a category and adds the page afterwards as "&page=n".
 * The term is interpolated as is: no percent-encoding is applied.
 */
module SearchUrls {
  import opened Strings
  import opened Records

  const QueryPath: string := "/item/search/query/"
  const TranslationParam: string := "translationType=98"

  /** `${baseUrl}/item/search/query/${term}` followed by `/category/${category}` when category is truthy. */
  function SearchPath(term: string, category: string): string {
    BaseUrl + QueryPath + term + (if category != "" then "/category/" + category else "")
  }

  /** "aucminprice=m&" when a minimum price is given, nothing otherwise. */
  function MinPart(minPrice: string): string {
    if minPrice != "" then "aucminprice=" + minPrice + "&" else ""
  }

  /** "aucmaxprice=m&" when a maximum price is given, nothing otherwise. */
  function MaxPart(maxPrice: string): string {
    if maxPrice != "" then "aucmaxprice=" + maxPrice + "&" else ""
  }

  /** The query parameters of the JavaScript scrapers, in push order. */
  function QueryParams(minPrice: string, maxPrice: string, page: int): (ps: seq<string>)
    ensures |ps| == 2 + (if minPrice != "" then 1 else 0) + (if maxPrice != "" then 1 else 0)
    ensures ps[|ps| - 2] == PageParam(page) && ps[|ps| - 1] == TranslationParam
  {
    (if minPrice != "" then ["aucminprice=" + minPrice] else [])
    + (if maxPrice != "" then ["aucmaxprice=" + maxPrice] else [])
    + [PageParam(page), TranslationParam]
  }

  /** The search URL of the JavaScript scrapers for one page. */
  function SearchUrl(term: string, category: string, minPrice: string, maxPrice: string, page: int): string {
    SearchPath(term, category) + "?" + Join(QueryParams(minPrice, maxPrice, page), "&")
  }

  lemma JoinCons(x: string, rest: seq<string>, sep: string)
    requires |rest| >= 1
    ensures Join([x] + rest, sep) == x + sep + Join(rest, sep)
  {
    assert ([x] + rest)[1..] == rest;
  }

  /** The query string after '?': optional prices, then the page, then the translation flag. */
  function QueryString(minPrice: string, maxPrice: string, page: int): string {
    MinPart(minPrice) + (MaxPart(maxPrice) + (PageParam(page) + "&" + TranslationParam))
  }

  /** "page=n". */
  function PageParam(page: int): string {
    "page=" + IntToDecimal(page)
  }

  lemma {:induction false} JoinQueryParams(minPrice: string, maxPrice: string, page: int)
    ensures Join(QueryParams(minPrice, maxPrice, page), "&") == QueryString(minPrice, maxPrice, page)
  {
    var p := PageParam(page);
    var tail := [p, TranslationParam];
    JoinCons(p, [TranslationParam], "&");
    var jt := Join(tail, "&");
    assert jt == p + "&" + TranslationParam;
    var withMax := (if maxPrice != "" then ["aucmaxprice=" + maxPrice] else []) + tail;
    var jm := Join(withMax, "&");
    if maxPrice != "" {
      JoinCons("aucmaxprice=" + maxPrice, tail, "&");
      assert jm == MaxPart(maxPrice) + jt;
    } else {
      assert withMax == tail;
    }
    assert jm == MaxPart(maxPrice) + jt;
    if minPrice != "" {
      assert QueryParams(minPrice, maxPrice, page) == ["aucminprice=" + minPrice] + withMax;
      JoinCons("aucminprice=" + minPrice, withMax, "&");
    } else {
      assert QueryParams(minPrice, maxPrice, page) == withMax;
    }
    assert Join(QueryParams(minPrice, maxPrice, page), "&") == MinPart(minPrice) + jm;
  }

  /**
   * The URL is exactly the path, then '?' (always present), then the optional
   * minimum and maximum price, the page number and the translation flag, in that order.
   */
  lemma SearchUrlShape(term: string, category: string, minPrice: string, maxPrice: string, page: int)
    ensures SearchUrl(term, category, minPrice, maxPrice, page)
         == SearchPath(term, category) + "?" + QueryString(minPrice, maxPrice, page)
  {
    JoinQueryParams(minPrice, maxPrice, page);
  }

  /**
   * scrapper.js / express_backend/scrapper.js: the URL built step by step,
   * pushing each parameter into `params` and joining them with '&'.
   */
  method BuildSearchUrl(term: string, minPrice: string, maxPrice: string, category: string, currentPage: int)
    returns (searchUrl: string)
    ensures searchUrl == SearchUrl(term, category, minPrice, maxPrice, currentPage)
  {
    searchUrl := BaseUrl + QueryPath + term;
    if category != "" {
      searchUrl := searchUrl + "/category/" + category;
    }
    var params: seq<string> := [];
    if minPrice != "" {
      params := params + ["aucminprice=" + minPrice];
    }
    if maxPrice != "" {
      params := params + ["aucmaxprice=" + maxPrice];
    }
    params := params + [PageParam(currentPage)];
    params := params + [TranslationParam];
    assert params == QueryParams(minPrice, maxPrice, currentPage);
    if |params| > 0 {
      searchUrl := searchUrl + "?" + Join(params, "&");
    }
  }

  /** The query parameters of the Python scraper, in append order. */
  function PyQueryParams(minPrice: string, maxPrice: string): (ps: seq<string>)
    ensures |ps| == 1 + (if minPrice != "" then 1 else 0) + (if maxPrice != "" then 1 else 0)
    ensures ps[|ps| - 1] == TranslationParam
  {
    (if minPrice != "" then ["aucminprice=" + minPrice] else [])
    + (if maxPrice != "" then ["aucmaxprice=" + maxPrice] else [])
    + [TranslationParam]
  }

  /** The Python scraper's search URL (no category, no page). */
  function PySearchUrl(term: string, minPrice: string, maxPrice: string): string {
    BaseUrl + QueryPath + term + "?" + Join(PyQueryParams(minPrice, maxPrice), "&")
  }

  /** `f"{search_url}&page={page}"`. */
  function PyPageUrl(searchUrl: string, page: int): string {
    searchUrl + "&page=" + IntToDecimal(page)
  }

  lemma {:induction false} JoinPyQueryParams(minPrice: string, maxPrice: string)
    ensures Join(PyQueryParams(minPrice, maxPrice), "&") == MinPart(minPrice) + MaxPart(maxPrice) + TranslationParam
  {
    var tail := [TranslationParam];
    var withMax := (if maxPrice != "" then ["aucmaxprice=" + maxPrice] else []) + tail;
    var jm := Join(withMax, "&");
    if maxPrice != "" {
      JoinCons("aucmaxprice=" + maxPrice, tail, "&");
    } else {
      assert withMax == tail;
    }
    assert jm == MaxPart(maxPrice) + TranslationParam;
    if minPrice != "" {
      assert PyQueryParams(minPrice, maxPrice) == ["aucminprice=" + minPrice] + withMax;
      JoinCons("aucminprice=" + minPrice, withMax, "&");
    } else {
      assert PyQueryParams(minPrice, maxPrice) == withMax;
    }
    assert Join(PyQueryParams(minPrice, maxPrice), "&") == MinPart(minPrice) + jm;
  }

  /**
   * Every page URL of the Python scraper is the path, '?', the optional prices,
   * the translation flag and then "&page=n": the page always comes last.
   */
  lemma PyPageUrlShape(term: string, minPrice: string, maxPrice: string, page: int)
    ensures PyPageUrl(PySearchUrl(term, minPrice, maxPrice), page)
         == BaseUrl + QueryPath + term + "?"
            + (MinPart(minPrice) + MaxPart(maxPrice) + TranslationParam) + "&page=" + IntToDecimal(page)
  {
    JoinPyQueryParams(minPrice, maxPrice);
  }

  /** backend/scraper/buyee_scraper.py: the URL built by appending to `params`. */
  method BuildPySearchUrl(term: string, minPrice: string, maxPrice: string) returns (searchUrl: string)
    ensures searchUrl == PySearchUrl(term, minPrice, maxPrice)
  {
    searchUrl := BaseUrl + QueryPath + term;
    var params: seq<string> := [];
    if minPrice != "" {
      params := params + ["aucminprice=" + minPrice];
    }
    if maxPrice != "" {
      params := params + ["aucmaxprice=" + maxPrice];
    }
    params := params + [TranslationParam];
    assert params == PyQueryParams(minPrice, maxPrice);
    if |params| > 0 {
      searchUrl := searchUrl + "?" + Join(params, "&");
    }
  }
}
