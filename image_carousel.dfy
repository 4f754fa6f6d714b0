/**
 * ProductImageCarousel.tsx: a product's image slider. The images are
 * preloaded; the ones that loaded are shown if there are any, otherwise the
 * given list; the arrows move a cyclic index over the shown list.
 */
module ImageCarousel {
  import opened Wrappers

  // ---------------------------------------------------------------------
  // Index rotation
  // ---------------------------------------------------------------------

  /** `prev === (length - 1) ? 0 : prev + 1`. */
  function Next(index: int, length: int): (r: int)
    ensures 1 <= length && 0 <= index < length ==> 0 <= r < length
  {
    if index == length - 1 then 0 else index + 1
  }

  /** `prev === 0 ? length - 1 : prev - 1`. */
  function Prev(index: int, length: int): (r: int)
    ensures 1 <= length && 0 <= index < length ==> 0 <= r < length
  {
    if index == 0 then length - 1 else index - 1
  }

  /** Within the list, each arrow undoes the other. */
  lemma NextPrevInverse(index: int, length: int)
    requires 0 <= index < length
    ensures Prev(Next(index, length), length) == index
    ensures Next(Prev(index, length), length) == index
  {
  }

  /** Pressing "next" k times. */
  function NextTimes(index: int, length: int, k: nat): int {
    if k == 0 then index else Next(NextTimes(index, length, k - 1), length)
  }

  /** Until the end of the list, pressing "next" k times moves k places. */
  lemma {:induction false} NextTimesNoWrap(index: int, length: int, k: nat)
    requires 0 <= index && index + k < length
    ensures NextTimes(index, length, k) == index + k
  {
    if k > 0 {
      NextTimesNoWrap(index, length, k - 1);
    }
  }

  /** Presses add up: a presses and then b presses are a + b presses. */
  lemma {:induction false} NextTimesCompose(index: int, length: int, a: nat, b: nat)
    ensures NextTimes(index, length, a + b) == NextTimes(NextTimes(index, length, a), length, b)
  {
    if b > 0 {
      NextTimesCompose(index, length, a, b - 1);
    }
  }

  /** A full round of "next" presses returns to the same image. */
  lemma FullRound(index: int, length: int)
    requires 0 <= index < length
    ensures NextTimes(index, length, length) == index
  {
    var toEnd := length - 1 - index;
    NextTimesNoWrap(index, length, toEnd);
    NextTimesCompose(index, length, toEnd, 1);
    assert NextTimes(index, length, toEnd + 1) == 0;
    NextTimesCompose(index, length, toEnd + 1, index);
    NextTimesNoWrap(0, length, index);
  }

  // ---------------------------------------------------------------------
  // Preload results
  // ---------------------------------------------------------------------

  /** `{ src, success }`. */
  datatype LoadResult = LoadResult(src: string, success: bool)

  /** `loadResults.filter(r => r.success === outcome).map(r => r.src)`. */
  function Picked(results: seq<LoadResult>, outcome: bool): seq<string> {
    if results == [] then []
    else
      var last := results[|results| - 1];
      Picked(results[..|results| - 1], outcome) + (if last.success == outcome then [last.src] else [])
  }

  /** `loadResults.filter(r => r.success).map(r => r.src)`. */
  function Successful(results: seq<LoadResult>): seq<string> {
    Picked(results, true)
  }

  /** `loadResults.filter(r => !r.success).map(r => r.src)`. */
  function Failed(results: seq<LoadResult>): seq<string> {
    Picked(results, false)
  }

  /** The sources of the results, in order. */
  function Sources(results: seq<LoadResult>): (r: seq<string>)
    ensures |r| == |results|
  {
    if results == [] then [] else Sources(results[..|results| - 1]) + [results[|results| - 1].src]
  }

  /** Both lists work result by result, so each keeps the input order. */
  lemma {:induction false} PartitionAppend(a: seq<LoadResult>, b: seq<LoadResult>, outcome: bool)
    ensures Picked(a + b, outcome) == Picked(a, outcome) + Picked(b, outcome)
    decreases |b|
  {
    if b == [] {
      assert a + b == a;
    } else {
      var init := b[..|b| - 1];
      PartitionAppend(a, init, outcome);
      assert (a + b)[..|a + b| - 1] == a + init;
      assert (a + b)[|a + b| - 1] == b[|b| - 1];
    }
  }

  /** The two lists together hold every source exactly once, as a multiset. */
  lemma {:induction false} PartitionCount(results: seq<LoadResult>)
    ensures |Successful(results)| + |Failed(results)| == |results|
    ensures multiset(Successful(results)) + multiset(Failed(results)) == multiset(Sources(results))
  {
    if results != [] {
      PartitionCount(results[..|results| - 1]);
    }
  }

  /** Every result with the given outcome has its source in that outcome's list. */
  lemma {:induction false} PartitionMembers(results: seq<LoadResult>, outcome: bool)
    ensures forall i :: 0 <= i < |results| && results[i].success == outcome ==> results[i].src in Picked(results, outcome)
  {
    if results != [] {
      var n := |results| - 1;
      var init := results[..n];
      PartitionMembers(init, outcome);
      forall i | 0 <= i < n
        ensures results[i] == init[i]
      {
      }
    }
  }

  /** Nothing else is in either list: each source comes from a result of that outcome. */
  lemma {:induction false} PartitionOrigins(results: seq<LoadResult>, outcome: bool)
    ensures forall s :: s in Picked(results, outcome) ==> LoadResult(s, outcome) in results
  {
    if results != [] {
      var n := |results| - 1;
      var init := results[..n];
      PartitionOrigins(init, outcome);
      assert results == init + [results[n]];
    }
  }

  // ---------------------------------------------------------------------
  // The component's state
  // ---------------------------------------------------------------------

  /** What the component draws. */
  datatype View =
    | Placeholder                                              // the grey box for no images
    | Slide(src: Option<string>, dots: nat, failedCount: nat)  // the shown image (None past the end), dots, error badge

  class Carousel {
    const images: seq<string>
    var currentIndex: int
    var loadedImages: seq<string>
    var imageLoadErrors: seq<string>

    /** `useState(0)` and two empty lists. */
    constructor (images: seq<string>)
      ensures this.images == images && currentIndex == 0 && loadedImages == [] && imageLoadErrors == []
    {
      this.images := images;
      currentIndex := 0;
      loadedImages := [];
      imageLoadErrors := [];
    }

    /** `loadedImages.length > 0 ? loadedImages : images`. */
    function Available(): (r: seq<string>)
      reads this
      ensures |loadedImages| > 0 ==> r == loadedImages
      ensures |loadedImages| == 0 ==> r == images
      ensures |r| == 0 <==> |loadedImages| == 0 && |images| == 0
    {
      if |loadedImages| > 0 then loadedImages else images
    }

    /** The index points into the shown list. */
    predicate InRange()
      reads this
    {
      0 <= currentIndex < |Available()|
    }

    /**
     * The preload effect: with no images nothing happens; otherwise every
     * image is tried (`loads` says whether a source loads) and the two lists
     * become the partition of the results.
     */
    method Preload(loads: string -> bool)
      modifies this
      ensures currentIndex == old(currentIndex)
      ensures |images| == 0 ==> loadedImages == old(loadedImages) && imageLoadErrors == old(imageLoadErrors)
      ensures |images| > 0 ==>
        var results := seq(|images|, i requires 0 <= i < |images| => LoadResult(images[i], loads(images[i])));
        loadedImages == Successful(results) && imageLoadErrors == Failed(results)
    {
      if |images| > 0 {
        var results := seq(|images|, i requires 0 <= i < |images| => LoadResult(images[i], loads(images[i])));
        loadedImages := Successful(results);
        imageLoadErrors := Failed(results);
      }
    }

    /** The right arrow. */
    method NextImage()
      modifies this
      ensures currentIndex == Next(old(currentIndex), |Available()|)
      ensures loadedImages == old(loadedImages) && imageLoadErrors == old(imageLoadErrors)
      ensures old(InRange()) ==> InRange()
    {
      var availableImages := Available();
      currentIndex := Next(currentIndex, |availableImages|);
    }

    /** The left arrow. */
    method PrevImage()
      modifies this
      ensures currentIndex == Prev(old(currentIndex), |Available()|)
      ensures loadedImages == old(loadedImages) && imageLoadErrors == old(imageLoadErrors)
      ensures old(InRange()) ==> InRange()
    {
      var availableImages := Available();
      currentIndex := Prev(currentIndex, |availableImages|);
    }

    /**
     * The render: the placeholder for no images, otherwise the image at the
     * index of the shown list, one dot per shown image and the failure count.
     */
    function Render(): (v: View)
      reads this
      ensures v.Placeholder? <==> |images| == 0
      ensures v.Slide? ==> v.dots == |Available()| && v.failedCount == |imageLoadErrors|
      ensures v.Slide? && InRange() ==> v.src == Some(Available()[currentIndex])
      ensures v.Slide? && !InRange() ==> v.src == None
    {
      if |images| == 0 then Placeholder
      else
        var displayImages := Available();
        Slide(if 0 <= currentIndex < |displayImages| then Some(displayImages[currentIndex]) else None,
              |displayImages|, |imageLoadErrors|)
    }
  }
}
