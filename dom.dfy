/**
 * The rendered document as the scrapers query it. Every `querySelector`,
 * `querySelectorAll`, `$`, `$$`, `getAttribute` and `textContent` of the
 * browser engine is replaced by a lookup in plain data.
 */
module Dom {
  import opened Wrappers

  /**
   * An element: its text content, its attributes, and, for each CSS selector
   * the scrapers use below it, the matching elements in document order.
   */
  datatype Node = Node(text: string, attrs: map<string, string>, matches: map<string, seq<Node>>)

  /** `el.querySelectorAll(selector)`. */
  function QueryAll(n: Node, selector: string): seq<Node> {
    if selector in n.matches then n.matches[selector] else []
  }

  /** `el.querySelector(selector)`: the first match, if any. */
  function Query(n: Node, selector: string): (r: Option<Node>)
    ensures r.Some? <==> QueryAll(n, selector) != []
    ensures r.Some? ==> r.value == QueryAll(n, selector)[0]
  {
    var all := QueryAll(n, selector);
    if all == [] then None else Some(all[0])
  }

  /** `el.getAttribute(name)`: null when the attribute is absent. */
  function Attr(e: Node, name: string): Option<string> {
    if name in e.attrs then Some(e.attrs[name]) else None
  }

  /** `el?.textContent`: no text when the element is missing. */
  function TextOf(e: Option<Node>): Option<string> {
    if e.Some? then Some(e.value.text) else None
  }

  /** A candidate text that JavaScript treats as truthy: present and non-empty. */
  predicate HasText(t: Option<string>) {
    t.Some? && t.value != ""
  }

  /**
   * `el.getAttribute(a) || el.getAttribute(b) || ...`: the first attribute
   * value that is present and non-empty. A falsy chain (every attribute
   * missing or empty) gives None.
   */
  function FirstNonEmptyAttr(e: Node, names: seq<string>): (r: Option<string>)
    ensures r.Some? ==> r.value != ""
    ensures r.None? <==> forall i :: 0 <= i < |names| ==> !HasText(Attr(e, names[i]))
    ensures r.Some? ==> exists i :: 0 <= i < |names| && Attr(e, names[i]) == r
                          && forall j :: 0 <= j < i ==> !HasText(Attr(e, names[j]))
  {
    if names == [] then None
    else if HasText(Attr(e, names[0])) then Attr(e, names[0])
    else
      var r := FirstNonEmptyAttr(e, names[1..]);
      assert forall i :: 1 <= i < |names| ==> names[i] == names[1..][i - 1];
      r
  }

  /** What navigating to a search page yields: a rendered document, or an error that is thrown. */
  datatype PageLoad = NavigationFailed | Loaded(doc: Node)

  /** What navigating to a detail page yields: the final location and document, or a thrown error. */
  datatype DetailLoad = DetailFailed(message: string) | DetailLoaded(location: string, doc: Node)
}
