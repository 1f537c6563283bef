/**
 * The image gallery on the detail page: which image is shown, whether the
 * fullscreen overlay is open, and the wrap-around navigation between images.
 */
module ImageGallery {

  /**
   * JavaScript's `%`: the remainder of truncating division, which takes the
   * sign of the dividend. Dafny's `%` is Euclidean; the two agree on a
   * non-negative dividend.
   */
  function JsRem(a: int, b: int): (r: int)
    requires b > 0
    ensures a >= 0 ==> r == a % b
    ensures a < 0 ==> -b < r <= 0
  {
    if a >= 0 then a % b else -((-a) % b)
  }

  /** `nextImage`: `(prev + 1) % images.length`. */
  function NextIndex(i: int, n: int): (r: int)
    requires n >= 1
    ensures 0 <= i < n ==> 0 <= r < n
    ensures 0 <= i < n ==> r == if i == n - 1 then 0 else i + 1
  {
    JsRem(i + 1, n)
  }

  /** `prevImage`: `(prev - 1 + images.length) % images.length`. */
  function PrevIndex(i: int, n: int): (r: int)
    requires n >= 1
    ensures 0 <= i < n ==> 0 <= r < n
    ensures 0 <= i < n ==> r == if i == 0 then n - 1 else i - 1
  {
    JsRem(i - 1 + n, n)
  }

  /** Going forward and then back, or back and then forward, restores the index. */
  lemma NextPrevInverse(i: int, n: int)
    requires 0 <= i < n
    ensures PrevIndex(NextIndex(i, n), n) == i
    ensures NextIndex(PrevIndex(i, n), n) == i
  {
  }

  /** The index after `k` presses of the next arrow. */
  function Advance(i: int, n: int, k: nat): int
    requires n >= 1
  {
    if k == 0 then i else NextIndex(Advance(i, n, k - 1), n)
  }

  /**
   * Up to a full round, `k` presses of the next arrow move the index `k`
   * places forward, wrapping past the last image to the first.
   */
  lemma {:induction false} AdvanceIsRotation(i: int, n: int, k: nat)
    requires 0 <= i < n && k <= n
    ensures Advance(i, n, k) == if i + k < n then i + k else i + k - n
  {
    if k > 0 {
      AdvanceIsRotation(i, n, k - 1);
    }
  }

  /** `images.length` presses of the next arrow come back to the image shown. */
  lemma FullCycle(i: int, n: int)
    requires 0 <= i < n
    ensures Advance(i, n, n) == i
  {
    AdvanceIsRotation(i, n, n);
  }

  class Gallery {
    /** The image URLs, in order. */
    const images: seq<string>
    var currentIndex: int
    var isFullscreen: bool

    /** The index names an image (it stays 0 for an empty gallery). */
    predicate Valid()
      reads this
    {
      if |images| == 0 then currentIndex == 0 else 0 <= currentIndex < |images|
    }

    constructor (images: seq<string>)
      ensures this.images == images
      ensures currentIndex == 0 && !isFullscreen && Valid()
    {
      this.images := images;
      currentIndex := 0;
      isFullscreen := false;
    }

    method NextImage()
      requires Valid() && |images| >= 1
      modifies this
      ensures Valid()
      ensures currentIndex == NextIndex(old(currentIndex), |images|)
      ensures isFullscreen == old(isFullscreen)
    {
      currentIndex := NextIndex(currentIndex, |images|);
    }

    method PrevImage()
      requires Valid() && |images| >= 1
      modifies this
      ensures Valid()
      ensures currentIndex == PrevIndex(old(currentIndex), |images|)
      ensures isFullscreen == old(isFullscreen)
    {
      currentIndex := PrevIndex(currentIndex, |images|);
    }

    /** `goToImage(index)` from the thumbnail strip, which offers every index of the list. */
    method GoToImage(index: int)
      requires 0 <= index < |images|
      modifies this
      ensures Valid() && currentIndex == index && isFullscreen == old(isFullscreen)
    {
      currentIndex := index;
    }

    /** Clicking the image or the fullscreen button. */
    method OpenFullscreen()
      modifies this
      ensures isFullscreen && currentIndex == old(currentIndex)
    {
      isFullscreen := true;
    }

    /** Clicking the overlay or its close button. */
    method CloseFullscreen()
      modifies this
      ensures !isFullscreen && currentIndex == old(currentIndex)
    {
      isFullscreen := false;
    }

    /** The counter `currentIndex + 1 / images.length`: a position between 1 and the count. */
    function Counter(): (r: (int, int))
      reads this
      requires Valid() && |images| >= 1
      ensures 1 <= r.0 <= r.1 == |images|
      ensures r.0 - 1 == currentIndex
    {
      (currentIndex + 1, |images|)
    }

    /**
     * The previous and next arrows, and the thumbnail strip: shown exactly
     * when pressing an arrow would move to another image.
     */
    function ShowsNavigation(): (r: bool)
      reads this
      ensures Valid() && |images| >= 1 ==> (r <==> NextIndex(currentIndex, |images|) != currentIndex)
      ensures Valid() && |images| >= 1 ==> (r <==> PrevIndex(currentIndex, |images|) != currentIndex)
      ensures |images| == 0 ==> !r
    {
      |images| > 1
    }
  }
}
