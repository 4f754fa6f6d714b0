/**
 * The selector fallback chains of the detail-page extractors: a list of
 * candidate texts (one per selector, in priority order) is scanned, the first
 * candidate whose raw text is non-empty wins and is trimmed, and a sentinel is
 * used when none does. The thumbnail chain works the same way over elements
 * and image attributes, cutting the winner at its first '?'.
 */
module Fallback {
  import opened Wrappers
  import opened Strings
  import opened Dom

  /** `document.title` is a string, and a string has no `textContent`: it never offers a text. */
  const DocumentTitle: Option<string> := None

  /** The candidate texts `document.querySelector(sel)?.textContent` for each selector in order. */
  function CandidateTexts(doc: Node, selectors: seq<string>): (ts: seq<Option<string>>)
    ensures |ts| == |selectors|
    ensures forall i :: 0 <= i < |selectors| ==> ts[i] == TextOf(Query(doc, selectors[i]))
  {
    seq(|selectors|, i requires 0 <= i < |selectors| => TextOf(Query(doc, selectors[i])))
  }

  /** The value the chain ends with: the first non-empty candidate, trimmed, else the sentinel. */
  function FirstText(cands: seq<Option<string>>, sentinel: string): string {
    if cands == [] then sentinel
    else if HasText(cands[0]) then Trim(cands[0].value)
    else FirstText(cands[1..], sentinel)
  }

  /**
   * The chain's outcome, characterised: when the first k candidates offer no
   * text, the result is the sentinel if there are no more candidates, and the
   * trimmed text of candidate k if that one offers text (even white space only,
   * which then yields "").
   */
  lemma {:induction false} FirstTextChoice(cands: seq<Option<string>>, sentinel: string, k: nat)
    requires k <= |cands|
    requires forall j :: 0 <= j < k ==> !HasText(cands[j])
    ensures k == |cands| ==> FirstText(cands, sentinel) == sentinel
    ensures k < |cands| && HasText(cands[k]) ==> FirstText(cands, sentinel) == Trim(cands[k].value)
  {
    if k > 0 {
      FirstTextChoice(cands[1..], sentinel, k - 1);
    }
  }

  /** The candidates of a concatenation of selector lists are the two candidate lists in turn. */
  lemma CandidateTextsAppend(doc: Node, s1: seq<string>, s2: seq<string>)
    ensures CandidateTexts(doc, s1 + s2) == CandidateTexts(doc, s1) + CandidateTexts(doc, s2)
  {
    var whole := CandidateTexts(doc, s1 + s2);
    var parts := CandidateTexts(doc, s1) + CandidateTexts(doc, s2);
    forall i | 0 <= i < |whole|
      ensures whole[i] == parts[i]
    {
      if i < |s1| {
        assert (s1 + s2)[i] == s1[i];
      } else {
        assert (s1 + s2)[i] == s2[i - |s1|];
      }
    }
  }

  /** Once some candidate of a chain offers text, candidates added after it are never consulted. */
  lemma {:induction false} FirstTextPrefix(a: seq<Option<string>>, rest: seq<Option<string>>, sentinel: string, k: nat)
    requires k < |a| && HasText(a[k])
    ensures FirstText(a + rest, sentinel) == FirstText(a, sentinel)
  {
    assert (a + rest)[0] == a[0];
    if !HasText(a[0]) {
      assert (a + rest)[1..] == a[1..] + rest;
      FirstTextPrefix(a[1..], rest, sentinel, k - 1);
    }
  }

  /** Appending the `document.title` candidate never changes the outcome of a chain. */
  lemma {:induction false} DocumentTitleNeverChosen(cands: seq<Option<string>>, sentinel: string)
    ensures FirstText(cands + [DocumentTitle], sentinel) == FirstText(cands, sentinel)
  {
    if cands == [] {
      assert [] + [DocumentTitle] == [DocumentTitle];
    } else {
      assert (cands + [DocumentTitle])[1..] == cands[1..] + [DocumentTitle];
      DocumentTitleNeverChosen(cands[1..], sentinel);
    }
  }

  /**
   * The `for (const el of elements) { if (el && el.textContent) { x = el.textContent.trim(); break; } }`
   * loop, starting from `x = sentinel`.
   */
  method SelectText(cands: seq<Option<string>>, sentinel: string) returns (r: string)
    ensures r == FirstText(cands, sentinel)
  {
    r := sentinel;
    var i := 0;
    while i < |cands|
      invariant 0 <= i <= |cands|
      invariant r == sentinel
      invariant FirstText(cands[i..], sentinel) == FirstText(cands, sentinel)
    {
      assert cands[i..][1..] == cands[i + 1..];
      if HasText(cands[i]) {
        r := Trim(cands[i].value);
        return;
      }
      i := i + 1;
    }
  }

  /** The element matched by `sel` exists and offers a non-empty image attribute. */
  predicate Offers(doc: Node, sel: string, attrNames: seq<string>) {
    Query(doc, sel).Some? && FirstNonEmptyAttr(Query(doc, sel).value, attrNames).Some?
  }

  /** The image source the element matched by `sel` offers, cut at its first '?'. */
  function SourceOf(doc: Node, sel: string, attrNames: seq<string>): (r: string)
    requires Offers(doc, sel, attrNames)
    ensures '?' !in r
  {
    BeforeFirst(FirstNonEmptyAttr(Query(doc, sel).value, attrNames).value, '?')
  }

  /**
   * The thumbnail chain: for each selector in order, the first matching element's
   * first non-empty image attribute, cut at '?'; None when no element offers one
   * (the JavaScript variable is then null or "").
   */
  function ThumbnailFrom(doc: Node, selectors: seq<string>, attrNames: seq<string>): (r: Option<string>)
    ensures r.Some? ==> '?' !in r.value
  {
    if selectors == [] then None
    else if Offers(doc, selectors[0], attrNames) then Some(SourceOf(doc, selectors[0], attrNames))
    else ThumbnailFrom(doc, selectors[1..], attrNames)
  }

  /**
   * When the first k selectors offer no source, the thumbnail is None if there
   * are no more selectors, and the source of selector k if that one offers one.
   */
  lemma {:induction false} ThumbnailChoice(doc: Node, selectors: seq<string>, attrNames: seq<string>, k: nat)
    requires k <= |selectors|
    requires forall j :: 0 <= j < k ==> !Offers(doc, selectors[j], attrNames)
    ensures k == |selectors| ==> ThumbnailFrom(doc, selectors, attrNames) == None
    ensures k < |selectors| && Offers(doc, selectors[k], attrNames) ==>
              ThumbnailFrom(doc, selectors, attrNames) == Some(SourceOf(doc, selectors[k], attrNames))
  {
    if k > 0 {
      assert forall j :: 0 <= j < k - 1 ==> selectors[1..][j] == selectors[j + 1];
      ThumbnailChoice(doc, selectors[1..], attrNames, k - 1);
    }
  }

  /** There is no thumbnail exactly when no selector's element offers a source. */
  lemma {:induction false} ThumbnailNone(doc: Node, selectors: seq<string>, attrNames: seq<string>)
    ensures ThumbnailFrom(doc, selectors, attrNames).None?
        <==> forall i :: 0 <= i < |selectors| ==> !Offers(doc, selectors[i], attrNames)
  {
    if selectors != [] {
      ThumbnailNone(doc, selectors[1..], attrNames);
      assert forall i :: 1 <= i < |selectors| ==> selectors[i] == selectors[1..][i - 1];
    }
  }

  /**
   * The `for (const selector of thumbnailSelectors)` loop: each found element
   * reassigns `thumbnailUrl`, and the first truthy one is cut at '?' and ends the loop.
   */
  method SelectThumbnail(doc: Node, selectors: seq<string>, attrNames: seq<string>) returns (thumb: Option<string>)
    ensures thumb == ThumbnailFrom(doc, selectors, attrNames)
  {
    thumb := None;
    var i := 0;
    while i < |selectors|
      invariant 0 <= i <= |selectors|
      invariant thumb == None
      invariant ThumbnailFrom(doc, selectors[i..], attrNames) == ThumbnailFrom(doc, selectors, attrNames)
    {
      assert selectors[i..][1..] == selectors[i + 1..];
      var el := Query(doc, selectors[i]);
      if el.Some? {
        var src := FirstNonEmptyAttr(el.value, attrNames);
        if src.Some? {
          thumb := Some(BeforeFirst(src.value, '?'));
          assert Offers(doc, selectors[i], attrNames);
          return;
        }
      }
      i := i + 1;
    }
  }
}
