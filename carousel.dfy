/** The two image carousels: the home page's hero slider (arrows, dots and
    an autoplay timer over three slides) and the car details gallery (arrows,
    dots and thumbnails over the car's images, and the not-found view). */
module Carousel {
  import opened Common
  import Catalog

  /** `(prev + 1) % length`. Both operands are non-negative, where the
      language's remainder and Dafny's agree. */
  function NextIdx(i: nat, n: nat): (r: nat)
    requires n > 0
    ensures r < n
  {
    (i + 1) % n
  }

  /** `(prev - 1 + length) % length`. */
  function PrevIdx(i: nat, n: nat): (r: nat)
    requires n > 0
    ensures r < n
  {
    (i - 1 + n) % n
  }

  /** Within range, the next index is one on except from the last, which
      wraps to the first; the previous one is one back except from the first,
      which wraps to the last. */
  lemma Steps(i: nat, n: nat)
    requires i < n
    ensures NextIdx(i, n) == if i == n - 1 then 0 else i + 1
    ensures PrevIdx(i, n) == if i == 0 then n - 1 else i - 1
  {
    ModBelowTwice(i + 1, n);
    ModBelowTwice(i - 1 + n, n);
  }

  /** Below twice the modulus, the remainder takes the modulus off at most
      once. */
  lemma ModBelowTwice(x: int, n: int)
    requires 0 < n && 0 <= x < 2 * n
    ensures x % n == if x < n then x else x - n
  {
    var q, r := x / n, x % n;
    assert x == q * n + r && 0 <= r < n;
    MulSign(q, n);
    assert q == 0 || q == 1;
  }

  /** A multiple of a positive number by a negative factor is at most its
      negation, and by a factor above one at least its double. */
  lemma MulSign(q: int, n: int)
    ensures n > 0 && q < 0 ==> q * n <= -n
    ensures n > 0 && q > 1 ==> q * n >= 2 * n
  {
    if n > 0 && q < 0 {
      MulNonNeg(-q - 1, n);
      assert q * n == -((-q - 1) * n) - n;
    }
    if n > 0 && q > 1 {
      MulNonNeg(q - 2, n);
      assert q * n == (q - 2) * n + 2 * n;
    }
  }

  lemma {:induction false} MulNonNeg(a: nat, n: nat)
    ensures a * n >= 0
    decreases a
  {
    if a > 0 {
      MulNonNeg(a - 1, n);
      assert a * n == (a - 1) * n + n;
    }
  }

  /** Previous undoes next and next undoes previous. */
  lemma NextPrevInverse(i: nat, n: nat)
    requires i < n
    ensures PrevIdx(NextIdx(i, n), n) == i
    ensures NextIdx(PrevIdx(i, n), n) == i
  {
    Steps(i, n);
    Steps(NextIdx(i, n), n);
    Steps(PrevIdx(i, n), n);
  }

  /** The index after `k` autoplay ticks from `i`; every tick is the step
      of the next arrow. */
  function Ticks(i: nat, n: nat, k: nat): (r: nat)
    requires n > 0
    ensures r < n || (k == 0 && r == i)
  {
    if k == 0 then i else NextIdx(Ticks(i, n, k - 1), n)
  }

  lemma {:induction false} TicksCompose(i: nat, n: nat, a: nat, b: nat)
    requires n > 0
    ensures Ticks(i, n, a + b) == Ticks(Ticks(i, n, a), n, b)
    decreases b
  {
    if b > 0 {
      TicksCompose(i, n, a, b - 1);
    }
  }

  /** Without a wrap, `k` ticks move `k` slides on. */
  lemma {:induction false} TicksForward(i: nat, n: nat, k: nat)
    requires i + k < n
    ensures Ticks(i, n, k) == i + k
    decreases k
  {
    if k > 0 {
      TicksForward(i, n, k - 1);
      Steps(i + k - 1, n);
    }
  }

  /** From any slide, `n - i` ticks wrap to the first. */
  lemma TicksToFirst(i: nat, n: nat)
    requires i < n
    ensures Ticks(i, n, n - i) == 0
  {
    TicksForward(i, n, n - 1 - i);
    Steps(n - 1, n);
    assert Ticks(i, n, n - i) == NextIdx(Ticks(i, n, n - 1 - i), n);
  }

  /** The autoplay shows every slide and comes back to where it started
      after `n` ticks. */
  lemma AutoplayCycles(i: nat, n: nat, j: nat)
    requires i < n && j < n
    ensures Ticks(i, n, n) == i
    ensures exists k :: 0 <= k < n && Ticks(i, n, k) == j
  {
    TicksToFirst(i, n);
    TicksCompose(i, n, n - i, i);
    TicksForward(0, n, i);
    if i <= j {
      TicksForward(i, n, j - i);
      assert Ticks(i, n, j - i) == j;
    } else {
      TicksCompose(i, n, n - i, j);
      TicksForward(0, n, j);
      assert Ticks(i, n, n - i + j) == j;
    }
  }

  // -------------------------------------------------------------------
  // The home page's hero slider

  /** `heroImages.length`. */
  const HeroSlides := 3

  /** Wrap-around of the hero slider: on from the last slide is the first,
      back from the first is the last. */
  lemma HeroWraps()
    ensures NextIdx(2, HeroSlides) == 0 && PrevIdx(0, HeroSlides) == 2
    ensures NextIdx(0, HeroSlides) == 1 && NextIdx(1, HeroSlides) == 2
  {
  }

  class HeroCarousel {
    var current: nat

    predicate Valid()
      reads this
    {
      current < HeroSlides
    }

    constructor ()
      ensures Valid() && current == 0
    {
      current := 0;
    }

    /** `nextSlide`. */
    method Next()
      requires Valid()
      modifies this
      ensures Valid() && current == NextIdx(old(current), HeroSlides)
    {
      current := (current + 1) % HeroSlides;
    }

    /** `prevSlide`. */
    method Prev()
      requires Valid()
      modifies this
      ensures Valid() && current == PrevIdx(old(current), HeroSlides)
      ensures old(current) == 0 ==> current == HeroSlides - 1
    {
      current := (current - 1 + HeroSlides) % HeroSlides;
    }

    /** The autoplay timer's tick: the same step as the next arrow. */
    method Tick()
      requires Valid()
      modifies this
      ensures Valid() && current == Ticks(old(current), HeroSlides, 1)
    {
      current := (current + 1) % HeroSlides;
    }

    /** A click on dot `i`. */
    method Dot(i: nat)
      requires i < HeroSlides
      modifies this
      ensures Valid() && current == i
    {
      current := i;
    }
  }

  // -------------------------------------------------------------------
  // The car details page

  datatype Page = NotFound | Details(car: Catalog.Car)

  /** `id ? getCarById(id) : undefined`, and the not-found branch when it
      finds nothing. */
  function PageFor(id: Option<string>): (p: Page)
    ensures p.NotFound? <==> !Truthy(id) || forall i :: 0 <= i < |Catalog.Cars| ==> Catalog.Cars[i].id != id.value
    ensures p.Details? ==> p.car.id == id.value && p.car in Catalog.Cars
  {
    if !Truthy(id) then NotFound
    else match Catalog.GetCarById(id.value)
      case None => NotFound
      case Some(c) => Details(c)
  }

  /** The arrows, dots and thumbnails are rendered only for more than one
      image. */
  predicate ShowsControls(car: Catalog.Car) {
    |car.images| > 1
  }

  /** Every car the page can show has its gallery controls, and more than one
      image to cycle through. */
  lemma DetailsShowControls(id: Option<string>)
    ensures PageFor(id).Details? ==> ShowsControls(PageFor(id).car) && |PageFor(id).car.images| >= 2
  {
    Catalog.CatalogImages();
  }

  /** The gallery of the car on the page; `current` is `currentImage`. */
  class ImageGallery {
    const images: seq<string>
    var current: nat

    predicate Valid()
      reads this
    {
      current < |images|
    }

    constructor (car: Catalog.Car)
      requires car in Catalog.Cars
      ensures Valid() && images == car.images && current == 0 && |images| >= 2
    {
      Catalog.CatalogImages();
      images := car.images;
      current := 0;
    }

    /** The image on show. */
    function Shown(): string
      requires Valid()
      reads this
    {
      images[current]
    }

    /** `nextImage`. */
    method NextImage()
      requires Valid()
      modifies this
      ensures Valid() && current == NextIdx(old(current), |images|)
    {
      current := (current + 1) % |images|;
    }

    /** `prevImage`. */
    method PrevImage()
      requires Valid()
      modifies this
      ensures Valid() && current == PrevIdx(old(current), |images|)
    {
      current := (current - 1 + |images|) % |images|;
    }

    /** A click on dot or thumbnail `i`. */
    method Select(i: nat)
      requires i < |images|
      modifies this
      ensures Valid() && current == i && Shown() == images[i]
    {
      current := i;
    }
  }
}
