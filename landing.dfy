/** The landing page's featured-designs slider: the designs fetched newest first, the
    first five of them featured, and the slide index moved by the previous and next
    buttons, which are shown only when more than four designs are featured. */
module Landing {
  import opened Common

  /** A `painting_designs` row as the landing page shows it. */
  datatype Design = Design(id: string, title: string, imageUrl: string, category: string, tags: seq<string>)

  /** JavaScript's `a % n` on integers: the remainder takes the sign of `a` (truncating
      division), unlike Dafny's `%`, whose remainder is never negative. */
  function JsRem(a: int, n: int): int
    requires n > 0
  {
    if a >= 0 then a % n else -((-a) % n)
  }

  /** `nextSlide`: `(prev + 1) % featuredDesigns.length`. */
  function NextIndex(i: int, n: int): int
    requires n > 0
  {
    JsRem(i + 1, n)
  }

  /** `prevSlide`: `(prev - 1 + featuredDesigns.length) % featuredDesigns.length`. */
  function PrevIndex(i: int, n: int): int
    requires n > 0
  {
    JsRem(i - 1 + n, n)
  }

  /** From an index in range, next moves one slide on and wraps from the last slide to
      the first; previous moves one slide back and wraps from the first to the last.
      Both stay in range. */
  lemma IndexSpec(i: int, n: int)
    requires 0 <= i < n
    ensures 0 <= NextIndex(i, n) < n && 0 <= PrevIndex(i, n) < n
    ensures NextIndex(i, n) == (if i == n - 1 then 0 else i + 1)
    ensures PrevIndex(i, n) == (if i == 0 then n - 1 else i - 1)
  {
  }

  /** From any non-negative index, even one past the end, both buttons land in range. */
  lemma IndexInRange(i: int, n: int)
    requires 0 <= i && n > 0
    ensures 0 <= NextIndex(i, n) < n
    ensures 0 <= PrevIndex(i, n) < n
  {
  }

  /** Previous undoes next and next undoes previous. */
  lemma NextPrevInverse(i: int, n: int)
    requires 0 <= i < n
    ensures PrevIndex(NextIndex(i, n), n) == i
    ensures NextIndex(PrevIndex(i, n), n) == i
  {
    IndexSpec(i, n);
    IndexSpec(NextIndex(i, n), n);
    IndexSpec(PrevIndex(i, n), n);
  }

  /** Pressing next `k` times. */
  function NextTimes(i: int, n: int, k: nat): int
    requires n > 0
  {
    if k == 0 then i else NextIndex(NextTimes(i, n, k - 1), n)
  }

  /** Presses of next that do not pass the last slide move forward one slide each. */
  lemma {:induction false} NextTimesNoWrap(i: int, n: int, k: nat)
    requires 0 <= i && i + k < n
    ensures NextTimes(i, n, k) == i + k
  {
    if k > 0 {
      NextTimesNoWrap(i, n, k - 1);
      IndexSpec(i + k - 1, n);
    }
  }

  /** `a` presses followed by `b` presses are `a + b` presses. */
  lemma {:induction false} NextTimesCompose(i: int, n: int, a: nat, b: nat)
    requires n > 0
    ensures NextTimes(i, n, a + b) == NextTimes(NextTimes(i, n, a), n, b)
  {
    if b > 0 {
      NextTimesCompose(i, n, a, b - 1);
    }
  }

  /** Pressing next once per featured design comes back to the starting slide: up to
      the last slide, one wrap to the first, then back up to the start. */
  lemma NextFullCircle(i: int, n: int)
    requires 0 <= i < n
    ensures NextTimes(i, n, n) == i
  {
    var toLast: nat := n - 1 - i;
    NextTimesNoWrap(i, n, toLast);
    NextTimesCompose(i, n, toLast, 1);
    IndexSpec(n - 1, n);
    assert NextTimes(i, n, toLast + 1) == 0;
    NextTimesCompose(i, n, toLast + 1, i);
    NextTimesNoWrap(0, n, i);
  }

  /** `(data || []).slice(0, 5)`. */
  function Featured(all: seq<Design>): seq<Design> {
    all[..Min(5, |all|)]
  }

  /** The featured designs are the first five fetched designs, or all of them when
      fewer than five were fetched. */
  lemma FeaturedSpec(all: seq<Design>)
    ensures |Featured(all)| <= 5 && |Featured(all)| <= |all|
    ensures all[..|Featured(all)|] == Featured(all)
    ensures |all| >= 5 ==> |Featured(all)| == 5
    ensures |all| < 5 ==> Featured(all) == all
  {
  }

  /** `featuredDesigns.length > 4`: the previous and next buttons are rendered. */
  predicate NavButtonsVisible(featured: seq<Design>) {
    |featured| > 4
  }

  /** Whenever the buttons can be pressed there is at least one slide (in fact five),
      so the remainder in next and previous is never taken modulo 0. */
  lemma NavButtonsMeanSlides(all: seq<Design>)
    ensures NavButtonsVisible(Featured(all)) <==> |all| >= 5
    ensures NavButtonsVisible(Featured(all)) ==> |Featured(all)| == 5
  {
    FeaturedSpec(all);
  }

  /** The page's state: the slide index, the fetched designs, the featured prefix and
      the loading flag. */
  class LandingPage {
    var currentSlide: int
    var allDesigns: seq<Design>
    var featuredDesigns: seq<Design>
    var loading: bool

    /** The featured list is always the prefix of the fetched list and the slide index
        is never negative. */
    ghost predicate Valid()
      reads this
    {
      0 <= currentSlide && featuredDesigns == Featured(allDesigns)
    }

    /** The first render: slide 0, nothing fetched yet, loading. */
    constructor ()
      ensures Valid()
      ensures currentSlide == 0 && allDesigns == [] && featuredDesigns == [] && loading
    {
      currentSlide := 0;
      allDesigns := [];
      featuredDesigns := [];
      loading := true;
    }

    /** `fetchDesigns` once the query answered: on an error both lists stay as they
        were (a toast is shown); otherwise the rows, or none when the data is null, are
        stored and the first five featured. Loading ends either way. */
    method FetchDesigns(data: Option<seq<Design>>, failed: bool)
      requires Valid()
      modifies this
      ensures Valid()
      ensures !loading && currentSlide == old(currentSlide)
      ensures failed ==> allDesigns == old(allDesigns) && featuredDesigns == old(featuredDesigns)
      ensures !failed ==> allDesigns == data.GetOr([]) && featuredDesigns == Featured(data.GetOr([]))
    {
      if !failed {
        var rows := data.GetOr([]);
        allDesigns := rows;
        featuredDesigns := rows[..Min(5, |rows|)];
      }
      loading := false;
    }

    /** The next button, which exists only while the navigation buttons are shown. */
    method NextSlide()
      requires Valid() && NavButtonsVisible(featuredDesigns)
      modifies this`currentSlide
      ensures Valid()
      ensures currentSlide == NextIndex(old(currentSlide), |featuredDesigns|)
      ensures 0 <= currentSlide < |featuredDesigns|
    {
      currentSlide := (currentSlide + 1) % |featuredDesigns|;
    }

    /** The previous button, which exists only while the navigation buttons are shown. */
    method PrevSlide()
      requires Valid() && NavButtonsVisible(featuredDesigns)
      modifies this`currentSlide
      ensures Valid()
      ensures currentSlide == PrevIndex(old(currentSlide), |featuredDesigns|)
      ensures 0 <= currentSlide < |featuredDesigns|
    {
      currentSlide := (currentSlide - 1 + |featuredDesigns|) % |featuredDesigns|;
    }
  }
}
