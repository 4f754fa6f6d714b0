/** The product records the scrapers return, the site origin and the sentinel texts. */
module Records {

  /** `this.baseUrl` / `self.base_url`. */
  const BaseUrl: string := "https://buyee.jp"

  const NoTitle: string := "No Title"
  const PriceNotAvailable: string := "Price Not Available"
  const TimeNotAvailable: string := "Time Not Available"

  /** A search-result record of the JavaScript scrapers: `{title, price, url, images}`. */
  datatype Listing = Listing(title: string, price: string, url: string, images: seq<string>)

  /** A record with a remaining-time text: `{title, price, time_remaining, url, images}`. */
  datatype Product = Product(title: string, price: string, timeRemaining: string, url: string, images: seq<string>)

  /** `if (!url.startsWith("http")) url = baseUrl + url`. */
  function AbsoluteUrl(href: string): string {
    if "http" <= href then href else BaseUrl + href
  }

  /**
   * The resolved url always starts with "http"; an href that already does is
   * kept unchanged, any other one is the origin followed by the href.
   */
  lemma AbsoluteUrlShape(href: string)
    ensures "http" <= AbsoluteUrl(href)
    ensures "http" <= href ==> AbsoluteUrl(href) == href
    ensures !("http" <= href) ==> AbsoluteUrl(href) == BaseUrl + href
    ensures AbsoluteUrl(AbsoluteUrl(href)) == AbsoluteUrl(href)
  {
    assert BaseUrl[..4] == "http";
    assert (BaseUrl + href)[..4] == BaseUrl[..4];
  }

  /** What refreshing one tracked listing yields: `{productUrl, price, timeRemaining}` or `{productUrl, error}`. */
  datatype UpdateResult =
    | Refreshed(productUrl: string, price: string, timeRemaining: string)
    | RefreshFailed(productUrl: string, error: string)
}
