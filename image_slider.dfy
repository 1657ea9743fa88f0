/** The screenshot carousel of src/components/ImageSlider.tsx: one image at a
    time, moved by the arrows, the dots and an autoplay timer. */
module Slides {
  import opened Js

  /** goToNext and the autoplay tick: the last image wraps round to the first. */
  function Successor(i: int, count: nat): (r: int)
    ensures 0 <= i < count ==> 0 <= r < count
    ensures i == count - 1 ==> r == 0
    ensures i != count - 1 ==> r == i + 1
  {
    if i == count - 1 then 0 else i + 1
  }

  /** goToPrevious: the first image wraps round to the last. */
  function Predecessor(i: int, count: nat): (r: int)
    ensures 0 <= i < count ==> 0 <= r < count
    ensures i == 0 ==> r == count - 1
    ensures i != 0 ==> r == i - 1
  {
    if i == 0 then count - 1 else i - 1
  }

  /** Forward then back, or back then forward, returns to the same image. */
  lemma SuccessorPredecessorInverse(i: int, count: nat)
    requires 0 <= i < count
    ensures Predecessor(Successor(i, count), count) == i
    ensures Successor(Predecessor(i, count), count) == i
  {
  }

  /** The position after `n` autoplay ticks from `i`. */
  function Ticks(i: int, n: nat, count: nat): (r: int)
    ensures 0 <= i < count ==> 0 <= r < count
  {
    if n == 0 then i else Successor(Ticks(i, n - 1, count), count)
  }

  /** One more tick moves the remainder one place round the circle. */
  lemma RemainderStep(n: nat, m: int)
    requires m > 0
    ensures (n + 1) % m == Successor(n % m, m)
  {
    var q, r := n / m, n % m;
    if r == m - 1 {
      RemainderOf(n + 1, m, q + 1, 0);
    } else {
      RemainderOf(n + 1, m, q, r + 1);
    }
  }

  /** Autoplay from the first image: after `n` ticks it shows image `n mod count`. */
  lemma {:induction false} TicksFromStart(n: nat, count: nat)
    requires count > 0
    ensures Ticks(0, n, count) == n % count
  {
    if n > 0 {
      TicksFromStart(n - 1, count);
      RemainderStep(n - 1, count);
    }
  }

  /** What the component draws: the current image, its caption number, and
      one dot per image telling whether it is the current one. */
  datatype Frame = Frame(image: string, caption: int, dots: seq<bool>)

  class ImageSlider {
    const images: seq<string>
    const autoPlay: bool
    var currentIndex: int

    /** Every image index the carousel shows is in range; with no images the
        component draws nothing, and the index is then unconstrained. */
    predicate Valid()
      reads this
    {
      |images| > 0 ==> 0 <= currentIndex < |images|
    }

    /** `autoPlay = true` is the default the caller may override. */
    constructor (images: seq<string>, autoPlay: bool)
      ensures this.images == images && this.autoPlay == autoPlay
      ensures Valid() && currentIndex == 0
    {
      this.images := images;
      this.autoPlay := autoPlay;
      currentIndex := 0;
    }

    method GoToPrevious()
      requires Valid()
      modifies this
      ensures Valid()
      ensures currentIndex == Predecessor(old(currentIndex), |images|)
    {
      currentIndex := if currentIndex == 0 then |images| - 1 else currentIndex - 1;
    }

    method GoToNext()
      requires Valid()
      modifies this
      ensures Valid()
      ensures currentIndex == Successor(old(currentIndex), |images|)
    {
      currentIndex := if currentIndex == |images| - 1 then 0 else currentIndex + 1;
    }

    /** The interval callback, registered only when autoplay is on; it makes
        the same move as the right arrow. */
    method Tick()
      requires Valid() && autoPlay
      modifies this
      ensures Valid()
      ensures currentIndex == Successor(old(currentIndex), |images|)
    {
      var prevIndex := currentIndex;
      currentIndex := if prevIndex == |images| - 1 then 0 else prevIndex + 1;
    }

    /** A click on dot `k`; there is one dot per image. */
    method GoToSlide(k: int)
      requires Valid() && 0 <= k < |images|
      modifies this
      ensures Valid() && currentIndex == k
    {
      currentIndex := k;
    }

    /** The rendered component; None is `return null`. The caption is
        `currentIndex + 1`, counting images from one. */
    function Render(): (r: Option<Frame>)
      reads this
      requires Valid()
      ensures r.None? <==> |images| == 0
      ensures r.Some? ==> r.value.image == images[currentIndex] && r.value.caption == currentIndex + 1
      ensures r.Some? ==> 1 <= r.value.caption <= |images|
      ensures r.Some? ==>
                |r.value.dots| == |images| && r.value.dots[currentIndex] &&
                forall j :: 0 <= j < |images| && j != currentIndex ==> !r.value.dots[j]
    {
      if |images| == 0 then None
      else
        var current := currentIndex;
        Some(Frame(images[current], current + 1, seq(|images|, j requires 0 <= j < |images| => j == current)))
    }
  }

  /** A carousel left to autoplay for `n` ticks from the start. */
  method Autoplay(images: seq<string>, n: nat) returns (shown: int)
    requires |images| > 0
    ensures shown == n % |images|
  {
    var slider := new ImageSlider(images, true);
    var k := 0;
    while k < n
      invariant 0 <= k <= n && slider.Valid() && slider.images == images && slider.autoPlay
      invariant slider.currentIndex == Ticks(0, k, |images|)
    {
      slider.Tick();
      k := k + 1;
    }
    TicksFromStart(n, |images|);
    shown := slider.currentIndex;
  }
}
