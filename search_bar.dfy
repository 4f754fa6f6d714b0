/**
 * SearchBar.tsx: the search box's submit handler, which turns text such as
 * "gucci:500-1000, shoes:200" into one search term per comma-separated
 * segment, each with an optional price range.
 */
module SearchBar {
  import opened Wrappers
  import opened Strings

  /** `{ term, minPrice, maxPrice }` as the handler builds it; an absent bound is "". */
  datatype SearchTerm = SearchTerm(term: string, minPrice: string, maxPrice: string)

  /** What `/:(\d+)?-?(\d+)?$/` yields: the matched text and its two groups ("" when a group did not take part). */
  datatype PriceParts = PriceParts(matched: string, min: string, max: string)

  /** `s.lastIndexOf(c)`, None for -1. */
  function LastIndex(s: string, c: char): (r: Option<nat>)
    ensures r.None? <==> c !in s
    ensures r.Some? ==> r.value < |s| && s[r.value] == c && c !in s[r.value + 1..]
  {
    if s == [] then None
    else if s[|s| - 1] == c then Some(|s| - 1)
    else
      var r := LastIndex(s[..|s| - 1], c);
      assert r.Some? ==> s[r.value + 1..] == s[..|s| - 1][r.value + 1..] + [s[|s| - 1]];
      r
  }

  /** The longest run of digits at the start of `t`: what the greedy `(\d+)?` takes. */
  function LeadingDigits(t: string): (d: string)
    ensures d <= t && AllDigits(d)
    ensures |d| == |t| || !IsDigit(t[|d|])
  {
    if t != [] && IsDigit(t[0]) then [t[0]] + LeadingDigits(t[1..]) else []
  }

  /**
   * `(\d+)?-?(\d+)?$` against the text after a ':': digits, an optional '-',
   * digits, and nothing else. Group 1 is greedy, so a lone number is the
   * minimum.
   */
  function RangeGroups(t: string): (r: Option<(string, string)>)
    ensures r.Some? ==> AllDigits(r.value.0) && AllDigits(r.value.1)
    ensures r.Some? ==> t == r.value.0 + "-" + r.value.1 || (t == r.value.0 && r.value.1 == [])
  {
    var d1 := LeadingDigits(t);
    var rest := t[|d1|..];
    if rest == [] then
      assert t == d1;
      Some((d1, ""))
    else if rest[0] == '-' && AllDigits(rest[1..]) then
      assert t == d1 + "-" + rest[1..];
      Some((d1, rest[1..]))
    else None
  }

  /**
   * The match of `/:(\d+)?-?(\d+)?$/`. Whatever follows a matching ':' holds
   * no ':', so the leftmost match starts at the last ':'.
   */
  function PriceMatch(s: string): (r: Option<PriceParts>)
    ensures r.Some? ==> exists k :: 0 <= k < |s| && s[k..] == r.value.matched
    ensures r.Some? ==> r.value.matched[0] == ':' && ':' !in r.value.matched[1..]
    ensures r.Some? ==> AllDigits(r.value.min) && AllDigits(r.value.max)
  {
    var k := LastIndex(s, ':');
    if k.None? then None
    else
      var t := s[k.value + 1..];
      var g := RangeGroups(t);
      if g.None? then None
      else
        assert s[k.value..] == ":" + t;
        Some(PriceParts(":" + t, g.value.0, g.value.1))
  }

  /** One segment: trimmed, then the price suffix (if any) split off and the keyword trimmed again. */
  function ParseTerm(segment: string): (r: SearchTerm)
    ensures PriceMatch(Trim(segment)).None? ==> r == SearchTerm(Trim(segment), "", "")
    ensures AllDigits(r.minPrice) && AllDigits(r.maxPrice)
    ensures NoEdgeSpace(r.term)
  {
    var trimmedTerm := Trim(segment);
    match PriceMatch(trimmedTerm)
    case Some(m) => SearchTerm(Trim(ReplaceFirst(trimmedTerm, m.matched, "")), m.min, m.max)
    case None => SearchTerm(trimmedTerm, "", "")
  }

  /** `.map(term => ...)` over the segments. */
  function ParseSegments(parts: seq<string>): (r: seq<SearchTerm>)
    ensures |r| == |parts|
    ensures forall i :: 0 <= i < |parts| ==> r[i] == ParseTerm(parts[i])
  {
    if parts == [] then [] else [ParseTerm(parts[0])] + ParseSegments(parts[1..])
  }

  /** `searchTerms.split(',').map(...)`: one term per segment, empty segments included. */
  function ParseSearchTerms(input: string): (r: seq<SearchTerm>)
    ensures |r| == |SplitOn(input, ',')| >= 1
  {
    ParseSegments(SplitOn(input, ','))
  }

  /** Mapping a segment list that starts with `first` starts with the parse of `first`. */
  lemma ParseSegmentsCons(first: string, rest: seq<string>)
    ensures ParseSegments([first] + rest) == [ParseTerm(first)] + ParseSegments(rest)
  {
    assert ([first] + rest)[1..] == rest;
  }

  // ---------------------------------------------------------------------
  // The inverse: writing terms back in the box's own format
  // ---------------------------------------------------------------------

  /** A term the format can carry: a keyword without ':' or ',' or edge space, numeric bounds. */
  predicate Writable(t: SearchTerm) {
    ':' !in t.term && ',' !in t.term && NoEdgeSpace(t.term)
    && AllDigits(t.minPrice) && AllDigits(t.maxPrice)
  }

  /** "keyword:min-max". */
  function Format(t: SearchTerm): string {
    t.term + ":" + t.minPrice + "-" + t.maxPrice
  }

  /** "keyword:min", the short form the placeholder shows. */
  function FormatMinOnly(t: SearchTerm): string {
    t.term + ":" + t.minPrice
  }

  lemma {:induction false} LeadingDigitsOf(a: string, b: string)
    requires AllDigits(a)
    requires b == [] || !IsDigit(b[0])
    ensures LeadingDigits(a + b) == a
    decreases |a|
  {
    if a != [] {
      assert (a + b)[1..] == a[1..] + b;
      LeadingDigitsOf(a[1..], b);
    }
  }

  /** Removing the first occurrence of a suffix whose first character the rest lacks leaves the rest. */
  lemma {:induction false} ReplaceFirstSuffix(a: string, p: string)
    requires p != [] && p[0] !in a
    ensures ReplaceFirst(a + p, p, "") == a
    decreases |a|
  {
    if a == [] {
      assert a + p == p;
    } else {
      assert (a + p)[0] == a[0] != p[0];
      assert !(p <= a + p);
      assert (a + p)[1..] == a[1..] + p;
      ReplaceFirstSuffix(a[1..], p);
      assert [a[0]] + a[1..] == a;
    }
  }

  /** The last occurrence is the one with none after it. */
  lemma {:induction false} LastIndexAt(s: string, c: char, k: nat)
    requires k < |s| && s[k] == c && c !in s[k + 1..]
    ensures LastIndex(s, c) == Some(k)
    decreases |s|
  {
    if k < |s| - 1 {
      assert s[|s| - 1] in s[k + 1..];
      var init := s[..|s| - 1];
      assert init[k + 1..] <= s[k + 1..];
      LastIndexAt(init, c, k);
    }
  }

  lemma LastColon(term: string, tail: string)
    requires ':' !in term && ':' !in tail
    ensures LastIndex(term + ":" + tail, ':') == Some(|term|)
  {
    var s := term + ":" + tail;
    assert s[|term| + 1..] == tail;
    LastIndexAt(s, ':', |term|);
  }

  lemma ColonTextNoEdge(term: string, tail: string)
    requires NoEdgeSpace(term) && tail != [] && !IsWhitespace(tail[|tail| - 1])
    ensures NoEdgeSpace(term + ":" + tail)
  {
    var s := term + ":" + tail;
    assert s[|s| - 1] == tail[|tail| - 1];
    if term == [] {
      assert s[0] == ':';
    } else {
      assert s[0] == term[0];
    }
  }

  /** Removing the price text from "keyword:text" leaves the keyword, already trimmed. */
  lemma KeywordOf(t: SearchTerm, tail: string)
    requires Writable(t)
    ensures Trim(ReplaceFirst(t.term + ":" + tail, ":" + tail, "")) == t.term
  {
    assert t.term + ":" + tail == t.term + (":" + tail);
    ReplaceFirstSuffix(t.term, ":" + tail);
    TrimNoEdge(t.term);
  }

  /** "keyword:text" needs no trimming when the text ends in a visible character. */
  lemma ColonTextTrimmed(t: SearchTerm, tail: string)
    requires Writable(t) && tail != [] && !IsWhitespace(tail[|tail| - 1])
    ensures Trim(t.term + ":" + tail) == t.term + ":" + tail
  {
    ColonTextNoEdge(t.term, tail);
    TrimNoEdge(t.term + ":" + tail);
  }

  /** In "keyword:text" the price match is the whole ":text", read by the two groups. */
  lemma PriceMatchOfColonText(term: string, tail: string)
    requires ':' !in term && ':' !in tail
    ensures PriceMatch(term + ":" + tail)
      == (var g := RangeGroups(tail); if g.None? then None else Some(PriceParts(":" + tail, g.value.0, g.value.1)))
  {
    var s := term + ":" + tail;
    LastColon(term, tail);
    assert s[|term| + 1..] == tail;
  }

  /** "min-max" and a lone "min" are read back as the two groups. */
  lemma RangeGroupsOf(min: string, max: string)
    requires AllDigits(min) && AllDigits(max)
    ensures RangeGroups(min + "-" + max) == Some((min, max))
    ensures RangeGroups(min) == Some((min, ""))
  {
    var t := min + "-" + max;
    assert t == min + ("-" + max);
    LeadingDigitsOf(min, "-" + max);
    assert t[|min|..] == "-" + max;
    assert t[|min|..][1..] == max;
    LeadingDigitsOf(min, []);
    assert min + [] == min;
  }

  /** Parsing "keyword:min-max" gives the term back. */
  lemma ParseFormat(t: SearchTerm)
    requires Writable(t)
    ensures ParseTerm(Format(t)) == t
  {
    var tail := t.minPrice + "-" + t.maxPrice;
    var s := t.term + ":" + tail;
    assert Format(t) == s;
    assert tail[|tail| - 1] == if t.maxPrice == [] then '-' else t.maxPrice[|t.maxPrice| - 1];
    assert ':' !in tail by {
      assert forall i :: 0 <= i < |tail| ==> tail[i] == '-' || IsDigit(tail[i]);
    }
    RangeGroupsOf(t.minPrice, t.maxPrice);
    ColonTextTrimmed(t, tail);
    PriceMatchOfColonText(t.term, tail);
    assert PriceMatch(Trim(s)) == Some(PriceParts(":" + tail, t.minPrice, t.maxPrice));
    KeywordOf(t, tail);
  }

  /** Parsing "keyword:min" (min non-empty) gives the term with no maximum. */
  lemma ParseFormatMinOnly(t: SearchTerm)
    requires Writable(t) && t.minPrice != [] && t.maxPrice == []
    ensures ParseTerm(FormatMinOnly(t)) == t
  {
    var s := t.term + ":" + t.minPrice;
    assert FormatMinOnly(t) == s;
    assert ':' !in t.minPrice by {
      assert forall i :: 0 <= i < |t.minPrice| ==> IsDigit(t.minPrice[i]);
    }
    assert !IsWhitespace(t.minPrice[|t.minPrice| - 1]) by {
      assert IsDigit(t.minPrice[|t.minPrice| - 1]);
    }
    RangeGroupsOf(t.minPrice, t.maxPrice);
    ColonTextTrimmed(t, t.minPrice);
    PriceMatchOfColonText(t.term, t.minPrice);
    assert PriceMatch(Trim(s)) == Some(PriceParts(":" + t.minPrice, t.minPrice, ""));
    KeywordOf(t, t.minPrice);
  }

  /** Joining writable terms with ',' and parsing the text gives the terms back, in order. */
  lemma ParseJoinedTerms(ts: seq<SearchTerm>)
    requires |ts| >= 1
    requires forall i :: 0 <= i < |ts| ==> Writable(ts[i])
    ensures ParseSearchTerms(Join(seq(|ts|, i requires 0 <= i < |ts| => Format(ts[i])), ",")) == ts
  {
    var parts := seq(|ts|, i requires 0 <= i < |ts| => Format(ts[i]));
    forall i | 0 <= i < |parts|
      ensures ',' !in parts[i]
    {
      assert ',' !in ts[i].minPrice + "-" + ts[i].maxPrice by {
        assert AllDigits(ts[i].minPrice) && AllDigits(ts[i].maxPrice);
      }
      assert parts[i] == ts[i].term + (":" + ts[i].minPrice + "-" + ts[i].maxPrice);
    }
    SplitJoin(parts, ',');
    forall i | 0 <= i < |ts|
      ensures ParseTerm(parts[i]) == ts[i]
    {
      ParseFormat(ts[i]);
    }
  }

  /** The placeholder's first example: a full range. */
  lemma ExampleRange()
    ensures ParseTerm("gucci:500-1000") == SearchTerm("gucci", "500", "1000")
  {
    var t := SearchTerm("gucci", "500", "1000");
    assert Format(t) == "gucci:500-1000";
    assert Writable(t);
    ParseFormat(t);
  }

  /** The placeholder's second example: a lone number is the minimum. */
  lemma ExampleMinOnly()
    ensures ParseTerm("shoes:200") == SearchTerm("shoes", "200", "")
  {
    var t := SearchTerm("shoes", "200", "");
    assert FormatMinOnly(t) == "shoes:200";
    assert Writable(t);
    ParseFormatMinOnly(t);
  }

  /** A number after '-' alone is the maximum. */
  lemma ExampleMaxOnly()
    ensures ParseTerm("kw:-300") == SearchTerm("kw", "", "300")
  {
    var t := SearchTerm("kw", "", "300");
    assert Format(t) == "kw:-300";
    assert Writable(t);
    ParseFormat(t);
  }

  /**
   * Every segment up to a ',' is parsed on its own and kept, even an empty
   * one; the rest of the text yields the following terms.
   */
  lemma SegmentsKept(first: string, rest: string)
    requires ',' !in first
    ensures ParseSearchTerms(first + [','] + rest) == [ParseTerm(first)] + ParseSearchTerms(rest)
  {
    SplitOnFirstSep(first, ',', rest);
    ParseSegmentsCons(first, SplitOn(rest, ','));
  }

  /** Text without a ',' is a single term. */
  lemma SingleSegment(text: string)
    requires ',' !in text
    ensures ParseSearchTerms(text) == [ParseTerm(text)]
  {
    SplitOnNoSep(text, ',');
  }

  /** Empty text is one empty term. */
  lemma EmptyInput()
    ensures ParseSearchTerms("") == [SearchTerm("", "", "")]
  {
    assert NoEdgeSpace("");
    TrimNoEdge("");
    assert PriceMatch("").None?;
  }
}
