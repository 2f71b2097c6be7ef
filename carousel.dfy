/** The image carousel: a fixed list of slides (a landscape set on wide
    screens, a portrait set below 768 pixels), an `activeIndex` state cell that an
    interval advances cyclically and the navigation dots set directly, and a
    lookup that maps any integer index onto the list. */
module Carousel {

  const Placeholder: string := "/images/placeholder.jpg"
  const MobileBreakpoint: int := 768

  const DesktopImages: seq<string> := [
    "/images/carousel/1.png", "/images/carousel/2.png", "/images/carousel/3.png",
    "/images/carousel/5.jpg", "/images/carousel/6.jpg", "/images/carousel/7.jpg",
    "/images/carousel/8.jpg", "/images/carousel/9.jpg", "/images/carousel/10.jpg",
    "/images/carousel/11.jpg"]

  const MobileImages: seq<string> := [
    "/images/carousel/mobile/1_mobile.png", "/images/carousel/mobile/2_mobile.png",
    "/images/carousel/mobile/3_mobile.png",
    "/images/carousel/5.jpg", "/images/carousel/6.jpg", "/images/carousel/7.jpg",
    "/images/carousel/8.jpg", "/images/carousel/9.jpg", "/images/carousel/10.jpg",
    "/images/carousel/11.jpg"]

  /** JavaScript's `a % n` for `n > 0`: the remainder takes the sign of `a`. */
  function JsRem(a: int, n: int): (r: int)
    requires n > 0
    ensures -n < r < n
    ensures a >= 0 ==> r == a % n
    ensures a < 0 ==> r == -((-a) % n)
  {
    if a >= 0 then a % n else -((-a) % n)
  }

  /** `((index % n) + n) % n`. */
  function NormalizeIndex(index: int, n: int): (k: int)
    requires n > 0
    ensures 0 <= k < n
    ensures k == index % n
  {
    var r := JsRem(index, n);
    if index >= 0 then
      ModUnique(r + n, n, 1, r);
      JsRem(r + n, n)
    else
      NegMod(-index, n);
      if (-index) % n == 0 then
        ModUnique(n, n, 1, 0);
        JsRem(r + n, n)
      else
        ModUnique(r + n, n, 0, r + n);
        JsRem(r + n, n)
  }

  lemma MulAtLeast(x: int, n: int)
    requires x >= 1 && n > 0
    ensures x * n >= n
  {
  }

  /** Division is determined by any quotient and in-range remainder. */
  lemma ModUnique(a: int, n: int, q: int, r: int)
    requires n > 0 && 0 <= r < n && a == q * n + r
    ensures a / n == q && a % n == r
  {
    var q', r' := a / n, a % n;
    assert q * n + r == q' * n + r';
    assert (q - q') * n == r' - r;
    if q > q' { MulAtLeast(q - q', n); }
    if q' > q { MulAtLeast(q' - q, n); }
  }

  /** The Euclidean remainder of a negated number. */
  lemma NegMod(a: int, n: int)
    requires a > 0 && n > 0
    ensures (-a) % n == 0 <==> a % n == 0
    ensures a % n != 0 ==> (-a) % n == n - a % n
  {
    var q, r := a / n, a % n;
    if r == 0 {
      assert (-q) * n == -(q * n);
      ModUnique(-a, n, -q, 0);
    } else {
      assert (-q - 1) * n == -(q * n) - n;
      ModUnique(-a, n, -q - 1, n - r);
    }
  }

  /** `getImageSrc(index)`: the placeholder for an empty list (or an empty entry),
      else the entry at the normalised index. */
  function ImageSrc(images: seq<string>, index: int): (src: string)
    ensures images == [] ==> src == Placeholder
    ensures images != [] ==> src == if images[index % |images|] == "" then Placeholder else images[index % |images|]
  {
    if |images| == 0 then Placeholder
    else
      var s := images[NormalizeIndex(index, |images|)];
      if s == "" then Placeholder else s
  }

  /** The lookup is periodic with the length of the list. */
  lemma ImageSrcPeriodic(images: seq<string>, index: int)
    ensures ImageSrc(images, index + |images|) == ImageSrc(images, index)
  {
    if images != [] {
      ModShift(index, |images|);
    }
  }

  lemma ModShift(a: int, n: int)
    requires n > 0
    ensures (a + n) % n == a % n
  {
    var q := a / n;
    assert (q + 1) * n == q * n + n;
    ModUnique(a + n, n, q + 1, a % n);
  }

  /** The side images of the stack show the slides before and after the active one,
      wrapping around at both ends. */
  lemma NeighbourSlides(images: seq<string>, active: int)
    requires 0 <= active < |images|
    requires forall k :: 0 <= k < |images| ==> images[k] != ""
    ensures ImageSrc(images, active) == images[active]
    ensures ImageSrc(images, active + |images| - 1) == images[if active == 0 then |images| - 1 else active - 1]
    ensures ImageSrc(images, active + 1) == images[if active == |images| - 1 then 0 else active + 1]
  {
    var n := |images|;
    ModUnique(active, n, 0, active);
    if active == 0 {
      ModUnique(n - 1, n, 0, n - 1);
    } else {
      ModUnique(active + n - 1, n, 1, active - 1);
    }
    if active == n - 1 {
      ModUnique(n, n, 1, 0);
    } else {
      ModUnique(active + 1, n, 0, active + 1);
    }
  }

  // --------------------------------------------------------------- auto-advance

  /** The interval's updater: the last slide goes back to the first, any other moves on. */
  function Advance(current: int, n: int): (next: int)
    ensures 0 <= current < n ==> 0 <= next < n
  {
    if current == n - 1 then 0 else current + 1
  }

  /** `k` interval ticks in a row. */
  function AdvanceTimes(current: int, n: int, k: nat): int {
    if k == 0 then current else Advance(AdvanceTimes(current, n, k - 1), n)
  }

  /** The remainder of a successor: one more, or back to zero after `n - 1`. */
  lemma ModSucc(a: int, n: int)
    requires n > 0
    ensures (a + 1) % n == if a % n == n - 1 then 0 else a % n + 1
  {
    var q, r := a / n, a % n;
    assert a == q * n + r;
    if r == n - 1 {
      assert (q + 1) * n == q * n + n;
      ModUnique(a + 1, n, q + 1, 0);
    } else {
      ModUnique(a + 1, n, q, r + 1);
    }
  }

  /** `k` ticks from a valid index land on the index `k` places further, modulo the length. */
  lemma {:induction false} AdvanceTimesIsShift(current: int, n: int, k: nat)
    requires 0 <= current < n
    ensures AdvanceTimes(current, n, k) == (current + k) % n
  {
    if k > 0 {
      AdvanceTimesIsShift(current, n, k - 1);
      ModSucc(current + k - 1, n);
    } else {
      ModUnique(current, n, 0, current);
    }
  }

  /** After as many ticks as there are slides the carousel is back where it started. */
  lemma FullCycle(current: int, n: int)
    requires 0 <= current < n
    ensures AdvanceTimes(current, n, n) == current
    ensures forall k :: 0 < k < n ==> AdvanceTimes(current, n, k) != current
  {
    AdvanceTimesIsShift(current, n, n);
    ModUnique(current + n, n, 1, current);
    forall k | 0 < k < n ensures AdvanceTimes(current, n, k) != current {
      AdvanceTimesIsShift(current, n, k);
      if current + k < n {
        ModUnique(current + k, n, 0, current + k);
      } else {
        ModUnique(current + k, n, 1, current + k - n);
      }
    }
  }

  /** The navigation dots: one per slide, the dot `i` jumping to slide `i`. */
  function Dots(n: nat): (targets: seq<int>)
    ensures |targets| == n
    ensures forall i :: 0 <= i < n ==> targets[i] == i
  {
    seq(n, i => i)
  }

  /** The two image sets have the same length, so switching between them keeps the index valid. */
  lemma ImageSetsAlign()
    ensures |DesktopImages| == |MobileImages| == 10
  {
  }

  /** Every image of both sets has a source, so the placeholder is never shown. */
  lemma ImageSetsPresent()
    ensures forall k :: 0 <= k < |DesktopImages| ==> DesktopImages[k] != ""
    ensures forall k :: 0 <= k < |MobileImages| ==> MobileImages[k] != ""
  {
  }

  /** The previous, active and next slide of a list of present images: the neighbours
      wrap around at both ends. */
  function VisibleSlides(images: seq<string>, active: int): (srcs: (string, string, string))
    requires 0 <= active < |images|
    requires forall k :: 0 <= k < |images| ==> images[k] != ""
    ensures srcs.0 == images[if active == 0 then |images| - 1 else active - 1]
    ensures srcs.1 == images[active]
    ensures srcs.2 == images[if active == |images| - 1 then 0 else active + 1]
  {
    NeighbourSlides(images, active);
    (ImageSrc(images, active + |images| - 1), ImageSrc(images, active), ImageSrc(images, active + 1))
  }

  /** The component's state: the active slide and whether the mobile set is shown. */
  class CarouselState {
    var activeIndex: int
    var isMobile: bool

    function Images(): seq<string>
      reads this
    {
      if isMobile then MobileImages else DesktopImages
    }

    ghost predicate Valid()
      reads this
    {
      0 <= activeIndex < |Images()|
    }

    constructor ()
      ensures activeIndex == 0 && !isMobile
      ensures Valid()
    {
      activeIndex := 0;
      isMobile := false;
    }

    /** The resize listener: the portrait set below the breakpoint. */
    method CheckIfMobile(innerWidth: int)
      requires Valid()
      modifies this
      ensures isMobile == (innerWidth < MobileBreakpoint)
      ensures activeIndex == old(activeIndex)
      ensures Valid()
    {
      isMobile := innerWidth < MobileBreakpoint;
    }

    /** One tick of the five-second interval. */
    method Tick()
      modifies this
      ensures activeIndex == Advance(old(activeIndex), |Images()|)
      ensures isMobile == old(isMobile)
      ensures old(Valid()) ==> Valid()
    {
      activeIndex := if activeIndex == |Images()| - 1 then 0 else activeIndex + 1;
    }

    /** `goToSlide(index)`: the state becomes that index and nothing else changes. */
    method GoToSlide(index: int)
      modifies this
      ensures activeIndex == index
      ensures isMobile == old(isMobile)
      ensures Valid() <==> 0 <= index < |Images()|
    {
      activeIndex := index;
    }

    /** Clicking dot `i`: every dot keeps the state valid. */
    method ClickDot(i: int)
      requires Valid()
      requires 0 <= i < |Dots(|Images()|)|
      modifies this
      ensures activeIndex == i && isMobile == old(isMobile)
      ensures Valid()
    {
      GoToSlide(Dots(|Images()|)[i]);
    }

    /** The three sources on screen: previous, active and next slide. */
    function Visible(): (srcs: (string, string, string))
      reads this
      requires Valid()
      ensures srcs.1 == Images()[activeIndex]
      ensures srcs.0 == Images()[if activeIndex == 0 then |Images()| - 1 else activeIndex - 1]
      ensures srcs.2 == Images()[if activeIndex == |Images()| - 1 then 0 else activeIndex + 1]
    {
      ImageSetsPresent();
      VisibleSlides(Images(), activeIndex)
    }
  }
}
