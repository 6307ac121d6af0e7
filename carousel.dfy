/** The promotional carousel of the home page (components/Carousel.tsx): a slide index that the
    arrows, the dots and a repeating timer move over a fixed list of three slides. */
module Carousel {
  /** A slide of `SLIDES`, reduced to the fields that identify it. */
  datatype Slide = Slide(id: nat, title: string, badge: string)

  const Slides: seq<Slide> := [
    Slide(1, "Yaz Kampanyası", "Kampanya"),
    Slide(2, "Yeni Ürünler", "Yeni"),
    Slide(3, "Çok Satanlar", "Popüler")
  ]

  /** `SLIDES.length`. */
  const SlideCount: nat := 3

  lemma SlideCountIsLength()
    ensures SlideCount == |Slides|
    ensures forall i :: 0 <= i < SlideCount ==> Slides[i].id == i + 1
  {
  }

  /** `(prev + 1) % SLIDES.length`: the following slide, wrapping from the last to the first. */
  function NextIndex(i: nat): (j: nat)
    requires i < SlideCount
    ensures j < SlideCount
    ensures j == if i == SlideCount - 1 then 0 else i + 1
  {
    (i + 1) % SlideCount
  }

  /** `(prev - 1 + SLIDES.length) % SLIDES.length`: the preceding slide, wrapping from the first to
      the last. The operand is never negative, so the remainder agrees with JavaScript's. */
  function PrevIndex(i: nat): (j: nat)
    requires i < SlideCount
    ensures j < SlideCount
    ensures j == if i == 0 then SlideCount - 1 else i - 1
  {
    (i - 1 + SlideCount) % SlideCount
  }

  /** The arrows undo each other. */
  lemma PrevUndoesNext(i: nat)
    requires i < SlideCount
    ensures PrevIndex(NextIndex(i)) == i
    ensures NextIndex(PrevIndex(i)) == i
  {
  }

  /** The index after `k` steps of the timer or the right arrow. */
  function Advance(i: nat, k: nat): (j: nat)
    requires i < SlideCount
    ensures j < SlideCount
  {
    if k == 0 then i else NextIndex(Advance(i, k - 1))
  }

  /** `k` steps move the index `k` places round the circle. */
  lemma {:induction false} AdvanceIsModular(i: nat, k: nat)
    requires i < SlideCount
    ensures Advance(i, k) == (i + k) % SlideCount
  {
    if k > 0 {
      AdvanceIsModular(i, k - 1);
      SuccessorMod(i + k - 1);
    }
  }

  /** Taking the successor commutes with reducing modulo the slide count. */
  lemma SuccessorMod(n: nat)
    ensures (n + 1) % SlideCount == if n % SlideCount == SlideCount - 1 then 0 else n % SlideCount + 1
  {
    var q, r := n / SlideCount, n % SlideCount;
    assert n == SlideCount * q + r;
    if r == SlideCount - 1 {
      assert n + 1 == SlideCount * (q + 1);
    } else {
      assert n + 1 == SlideCount * q + (r + 1);
    }
  }

  /** A full round of the timer comes back to the same slide. */
  lemma FullRoundReturns(i: nat, rounds: nat)
    requires i < SlideCount
    ensures Advance(i, rounds * SlideCount) == i
  {
    AdvanceIsModular(i, rounds * SlideCount);
  }

  /** Every slide is shown within fewer than `SlideCount` steps, from any slide. */
  lemma EverySlideReached(i: nat, j: nat)
    requires i < SlideCount && j < SlideCount
    ensures exists k :: 0 <= k < SlideCount && Advance(i, k) == j
  {
    var k := (j - i + SlideCount) % SlideCount;
    AdvanceIsModular(i, k);
  }

  /** `index === currentIndex`: the dot drawn as the active one. */
  predicate DotActive(index: nat, current: nat) {
    index == current
  }

  /** The state of `PromoCarousel`: `currentIndex`. */
  class PromoCarousel {
    var currentIndex: nat

    /** The index always names one of the slides. */
    ghost predicate Valid()
      reads this
    {
      currentIndex < SlideCount
    }

    /** `useState(0)`. */
    constructor ()
      ensures Valid() && currentIndex == 0
    {
      currentIndex := 0;
    }

    /** The slide on screen, `SLIDES[currentIndex]`. */
    function CurrentSlide(): (s: Slide)
      requires Valid()
      reads this
      ensures s in Slides
    {
      Slides[currentIndex]
    }

    /** `goToSlide(index)`, called by the dot of slide `index`. */
    method GoToSlide(index: nat)
      requires index < SlideCount
      modifies this
      ensures Valid() && currentIndex == index
      ensures forall k :: 0 <= k < SlideCount ==> (DotActive(k, currentIndex) <==> k == index)
    {
      currentIndex := index;
    }

    /** `nextSlide`, and the timer callback, which does the same. */
    method NextSlide()
      requires Valid()
      modifies this
      ensures Valid() && currentIndex == NextIndex(old(currentIndex))
    {
      currentIndex := (currentIndex + 1) % SlideCount;
    }

    /** `prevSlide`. */
    method PrevSlide()
      requires Valid()
      modifies this
      ensures Valid() && currentIndex == PrevIndex(old(currentIndex))
    {
      currentIndex := (currentIndex - 1 + SlideCount) % SlideCount;
    }
  }
}
