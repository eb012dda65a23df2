/**
  The testimonial carousel: a cyclic index into a non-empty list of
  testimonials, moved by the previous, next and indicator buttons and by an
  autoplay interval that the first manual navigation switches off for good.
 */
module TestimonialCarousel {
  import opened JsValues

  datatype Testimonial = Testimonial(id: int, quote: string, author: string, company: string, image: Option<string>)

  /** `(i + 1) % n` */
  function Next(i: nat, n: nat): (j: nat)
    requires n > 0
    ensures j < n
    ensures i < n - 1 ==> j == i + 1
    ensures i == n - 1 ==> j == 0
  {
    (i + 1) % n
  }

  /** `(i - 1 + n) % n` */
  function Previous(i: nat, n: nat): (j: nat)
    requires n > 0 && i < n
    ensures j < n
    ensures 0 < i ==> j == i - 1
    ensures i == 0 ==> j == n - 1
  {
    (i - 1 + n) % n
  }

  /** Previous undoes Next. */
  lemma PreviousAfterNext(i: nat, n: nat)
    requires i < n
    ensures Previous(Next(i, n), n) == i
  {
  }

  /** Next undoes Previous. */
  lemma NextAfterPrevious(i: nat, n: nat)
    requires i < n
    ensures Next(Previous(i, n), n) == i
  {
  }

  /** The index after `k` steps forward (autoplay ticks or next clicks). */
  function Advance(i: nat, n: nat, k: nat): (j: nat)
    requires n > 0
    ensures j < n || (k == 0 && j == i)
  {
    if k == 0 then i else Next(Advance(i, n, k - 1), n)
  }

  lemma MulDistributes(a: nat, b: nat, n: nat)
    requires b < a
    ensures a * n - b * n == (a - b) * n
  {
  }

  lemma {:induction false} MulAtLeast(d: nat, n: nat)
    requires d >= 1
    ensures d * n >= n
  {
    if d > 1 {
      MulAtLeast(d - 1, n);
      assert d * n == (d - 1) * n + n;
    }
  }

  lemma MulDifference(a: nat, b: nat, n: nat)
    requires b < a
    ensures a * n - b * n >= n
  {
    MulDistributes(a, b, n);
    MulAtLeast(a - b, n);
  }

  /** Division with remainder is unique. */
  lemma ModUnique(a: nat, n: nat, q: nat, r: nat)
    requires r < n && a == q * n + r
    ensures a % n == r
  {
    var q', r' := a / n, a % n;
    assert a == q' * n + r';
    if q' < q {
      MulDifference(q, q', n);
    } else if q < q' {
      MulDifference(q', q, n);
    }
  }

  /** One step forward from `x % n` is `(x + 1) % n`. */
  lemma NextOfMod(x: nat, n: nat)
    requires n > 0
    ensures Next(x % n, n) == (x + 1) % n
  {
    var q, r := x / n, x % n;
    if r < n - 1 {
      ModUnique(x + 1, n, q, r + 1);
    } else {
      ModUnique(x + 1, n, q + 1, 0);
    }
  }

  /** `k` steps forward land on `(i + k) % n`. */
  lemma {:induction false} AdvanceIsOffset(i: nat, n: nat, k: nat)
    requires i < n
    ensures Advance(i, n, k) == (i + k) % n
  {
    if k == 0 {
      ModUnique(i, n, 0, i);
    } else {
      AdvanceIsOffset(i, n, k - 1);
      NextOfMod(i + k - 1, n);
    }
  }

  /** After as many steps forward as there are testimonials, the carousel is back where it started. */
  lemma FullCycle(i: nat, n: nat)
    requires i < n
    ensures Advance(i, n, n) == i
  {
    AdvanceIsOffset(i, n, n);
    ModUnique(i + n, n, 1, i);
  }

  class Carousel {
    const testimonials: seq<Testimonial>
    var currentIndex: nat
    var isAutoplay: bool

    ghost predicate Valid()
      reads this
    {
      |testimonials| > 0 && currentIndex < |testimonials|
    }

    /** Rendering reads `testimonials[currentIndex]`, so the list must not be empty. */
    constructor (ts: seq<Testimonial>)
      requires |ts| > 0
      ensures Valid() && testimonials == ts
      ensures currentIndex == 0 && isAutoplay
    {
      testimonials := ts;
      currentIndex := 0;
      isAutoplay := true;
    }

    /** The testimonial on display. */
    function Current(): (t: Testimonial)
      requires Valid()
      reads this
      ensures t in testimonials
    {
      testimonials[currentIndex]
    }

    /** The interval callback, registered only while autoplay is on. */
    method AutoplayTick()
      requires Valid() && isAutoplay
      modifies this
      ensures Valid()
      ensures currentIndex == Next(old(currentIndex), |testimonials|)
      ensures isAutoplay
    {
      currentIndex := (currentIndex + 1) % |testimonials|;
    }

    /** `goToNext` */
    method GoToNext()
      requires Valid()
      modifies this
      ensures Valid()
      ensures currentIndex == Next(old(currentIndex), |testimonials|)
      ensures !isAutoplay
    {
      isAutoplay := false;
      currentIndex := (currentIndex + 1) % |testimonials|;
    }

    /** `goToPrevious` */
    method GoToPrevious()
      requires Valid()
      modifies this
      ensures Valid()
      ensures currentIndex == Previous(old(currentIndex), |testimonials|)
      ensures !isAutoplay
    {
      isAutoplay := false;
      currentIndex := (currentIndex - 1 + |testimonials|) % |testimonials|;
    }

    /** `goToSlide`, called by the indicator buttons with an index of the list. */
    method GoToSlide(index: nat)
      requires Valid() && index < |testimonials|
      modifies this
      ensures Valid()
      ensures currentIndex == index
      ensures !isAutoplay
    {
      isAutoplay := false;
      currentIndex := index;
    }
  }

  /** A client: next then previous returns to the same slide and autoplay stays off. */
  method NextThenPrevious(c: Carousel)
    requires c.Valid()
    modifies c
    ensures c.Valid()
    ensures c.currentIndex == old(c.currentIndex) && !c.isAutoplay
  {
    c.GoToNext();
    c.GoToPrevious();
    PreviousAfterNext(old(c.currentIndex), |c.testimonials|);
  }
}
