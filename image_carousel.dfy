/** The image carousel of the coin detail page: wrap-around navigation over
    the coin's images, the dots that jump to one image, and zoom. */
module ImageCarousel {

  /** The index after one press of an arrow. 'prev' steps back and wraps from
      the first image to the last; any other direction steps forward and
      wraps from the last image to the first. */
  function Step(index: int, len: int, direction: string): (r: int)
    ensures direction == "prev" && index == 0 ==> r == len - 1
    ensures direction == "prev" && index != 0 ==> r == index - 1
    ensures direction != "prev" && index == len - 1 ==> r == 0
    ensures direction != "prev" && index != len - 1 ==> r == index + 1
  {
    if direction == "prev" then
      if index == 0 then len - 1 else index - 1
    else
      if index == len - 1 then 0 else index + 1
  }

  /** With at least one image, navigation never leaves the image list. */
  lemma StepStaysInRange(index: int, len: int, direction: string)
    requires 0 <= index < len
    ensures 0 <= Step(index, len, direction) < len
  {
  }

  /** With no images, 'prev' from the start gives index -1: the handler is
      only safe because the arrows are hidden then. */
  lemma StepWithoutImages()
    ensures Step(0, 0, "prev") == -1
  {
  }

  /** Stepping is arithmetic modulo the number of images. */
  lemma StepIsModular(index: int, len: int, direction: string)
    requires 0 <= index < len
    ensures Step(index, len, direction) == if direction == "prev" then (index - 1 + len) % len else (index + 1) % len
  {
    if direction == "prev" {
      if index == 0 {
        ModBelow(len - 1, len);
      } else {
        ModOneAbove(index - 1 + len, len);
      }
    } else {
      if index == len - 1 {
        ModOneAbove(len, len);
      } else {
        ModBelow(index + 1, len);
      }
    }
  }

  lemma ModBelow(x: int, n: int)
    requires 0 <= x < n
    ensures x % n == x
  {
  }

  lemma ModOneAbove(x: int, n: int)
    requires 0 < n <= x < 2 * n
    ensures x % n == x - n
  {
    assert x == 1 * n + (x - n);
  }

  /** 'next' undoes 'prev' and 'prev' undoes 'next'. */
  lemma PrevNextInverse(index: int, len: int)
    requires 0 <= index < len
    ensures Step(Step(index, len, "prev"), len, "next") == index
    ensures Step(Step(index, len, "next"), len, "prev") == index
  {
  }

  /** The index after n presses of 'next'. */
  function NextTimes(index: int, len: int, n: nat): int
  {
    if n == 0 then index else Step(NextTimes(index, len, n - 1), len, "next")
  }

  /** Before the last image is reached, n presses of 'next' advance the
      index by n. */
  lemma {:induction false} NextTimesAdvances(index: int, len: int, n: nat)
    requires 0 <= index && index + n < len
    ensures NextTimes(index, len, n) == index + n
  {
    if n > 0 {
      NextTimesAdvances(index, len, n - 1);
    }
  }

  /** Presses of 'next' add up: a + b presses are a presses followed by b. */
  lemma {:induction false} NextTimesCompose(index: int, len: int, a: nat, b: nat)
    ensures NextTimes(index, len, a + b) == NextTimes(NextTimes(index, len, a), len, b)
  {
    if b > 0 {
      NextTimesCompose(index, len, a, b - 1);
    }
  }

  /** As many presses of 'next' as there are images bring back the image
      the visitor started from. */
  lemma NextLenTimesIsIdentity(index: int, len: int)
    requires 0 <= index < len
    ensures NextTimes(index, len, len) == index
  {
    var toEnd: nat := len - 1 - index;
    NextTimesAdvances(index, len, toEnd);
    assert NextTimes(index, len, toEnd + 1) == 0;
    NextTimesCompose(index, len, toEnd + 1, index);
    if index > 0 {
      NextTimesAdvances(0, len, index);
    }
  }

  /** The arrows and the dots are shown only when there is more than one
      image. */
  predicate ControlsShown(len: int)
  {
    len > 1
  }

  /** The carousel's state. */
  class Carousel {
    const images: seq<string>
    var currentImageIndex: int
    var isZoomed: bool

    ghost predicate Valid()
      reads this
    {
      |images| > 0 ==> 0 <= currentImageIndex < |images|
    }

    constructor (images: seq<string>)
      ensures Valid()
      ensures this.images == images && currentImageIndex == 0 && !isZoomed
    {
      this.images := images;
      currentImageIndex := 0;
      isZoomed := false;
    }

    /** The image on screen. */
    function CurrentImage(): (src: string)
      requires Valid() && |images| > 0
      reads this
      ensures src in images
    {
      images[currentImageIndex]
    }

    /** An arrow press; the arrows exist only when there is more than one
        image. */
    method Navigate(direction: string)
      requires Valid() && ControlsShown(|images|)
      modifies this
      ensures Valid()
      ensures currentImageIndex == Step(old(currentImageIndex), |images|, direction)
      ensures isZoomed == old(isZoomed)
    {
      StepStaysInRange(currentImageIndex, |images|, direction);
      if direction == "prev" {
        currentImageIndex := if currentImageIndex == 0 then |images| - 1 else currentImageIndex - 1;
      } else {
        currentImageIndex := if currentImageIndex == |images| - 1 then 0 else currentImageIndex + 1;
      }
    }

    /** A dot click shows the image at that dot's position. */
    method SelectDot(index: int)
      requires Valid() && ControlsShown(|images|) && 0 <= index < |images|
      modifies this
      ensures Valid()
      ensures currentImageIndex == index && isZoomed == old(isZoomed)
    {
      currentImageIndex := index;
    }

    /** A click on the image toggles zoom. */
    method ToggleZoom()
      requires Valid()
      modifies this
      ensures Valid()
      ensures isZoomed == !old(isZoomed) && currentImageIndex == old(currentImageIndex)
    {
      isZoomed := !isZoomed;
    }
  }
}
