/** The before/after gallery: a cyclic index over the fixed list of image
    pairs, and the position of the comparison slider as a percentage. Every
    navigation puts the slider back in the middle; dragging clamps it into
    [0, 100]. */
module BeforeAfterComponent {

  /** The number of image pairs in the gallery. */
  const PairCount := 4
  /** Where the slider starts and where every navigation puts it. */
  const CenterPosition := 50

  /** The slide after `i`: the last slide wraps round to the first. */
  function NextIndex(i: nat, n: nat): (r: nat)
    requires i < n
    ensures r < n
    ensures r == 0 <==> i == n - 1
  {
    if i == n - 1 then 0 else i + 1
  }

  /** The slide before `i`: the first slide wraps round to the last. */
  function PrevIndex(i: nat, n: nat): (r: nat)
    requires i < n
    ensures r < n
    ensures r == n - 1 <==> i == 0
  {
    if i == 0 then n - 1 else i - 1
  }

  /** `a % n` is the remainder of any division of `a` by `n`. */
  lemma ModUnique(a: int, n: int, q: int, r: int)
    requires n > 0 && 0 <= r < n && a == q * n + r
    ensures a % n == r
  {
    var q0, r0 := a / n, a % n;
    assert (q - q0) * n == r0 - r;
    if q0 < q {
      MulAtLeast(q - q0, n);
      assert false;
    } else if q < q0 {
      MulAtLeast(q0 - q, n);
      assert false;
    }
  }

  lemma MulAtLeast(d: int, n: int)
    requires d >= 1 && n > 0
    ensures d * n >= n
  {
    assert d * n == (d - 1) * n + n;
  }

  /** Next and previous are one step forward and one step back round a
      cycle of `n` slides: addition and subtraction modulo `n`. */
  lemma StepsAreModular(i: nat, n: nat)
    requires i < n
    ensures NextIndex(i, n) == (i + 1) % n
    ensures PrevIndex(i, n) == (i + n - 1) % n
  {
    if i == n - 1 { ModUnique(i + 1, n, 1, 0); } else { ModUnique(i + 1, n, 0, i + 1); }
    if i == 0 { ModUnique(i + n - 1, n, 0, n - 1); } else { ModUnique(i + n - 1, n, 1, i - 1); }
  }

  /** Going forward and then back, or back and then forward, returns to the
      slide one started from. */
  lemma NextPrevInverse(i: nat, n: nat)
    requires i < n
    ensures PrevIndex(NextIndex(i, n), n) == i
    ensures NextIndex(PrevIndex(i, n), n) == i
  {
  }

  /** The slide reached from `i` by `k` presses of the next button. */
  function NextTimes(i: nat, n: nat, k: nat): (r: nat)
    requires i < n
    ensures r < n
  {
    if k == 0 then i else NextIndex(NextTimes(i, n, k - 1), n)
  }

  /** `k` presses of the next button advance the slide by `k` modulo the
      number of slides. */
  lemma {:induction false} NextTimesIsModular(i: nat, n: nat, k: nat)
    requires i < n
    ensures NextTimes(i, n, k) == (i + k) % n
  {
    if k == 0 {
      ModUnique(i, n, 0, i);
    } else {
      NextTimesIsModular(i, n, k - 1);
      var j := NextTimes(i, n, k - 1);
      StepsAreModular(j, n);
      var q := (i + k - 1) / n;
      assert i + k - 1 == q * n + j;
      if j == n - 1 {
        ModUnique(i + k, n, q + 1, 0);
      } else {
        ModUnique(i + k, n, q, j + 1);
      }
    }
  }

  /** The slides visited by the first `k` presses of next, starting at `i`. */
  function Visited(i: nat, n: nat, k: nat): set<nat>
    requires i < n
  {
    set m | 0 <= m < k :: NextTimes(i, n, m)
  }

  /** Pressing next once per slide visits every slide and comes back to the
      one it started from. */
  lemma FullCycle(i: nat, n: nat)
    requires i < n
    ensures NextTimes(i, n, n) == i
    ensures forall j :: 0 <= j < n ==> j in Visited(i, n, n)
  {
    NextTimesIsModular(i, n, n);
    ModUnique(i + n, n, 1, i);
    forall j | 0 <= j < n
      ensures j in Visited(i, n, n)
    {
      var k := if j >= i then j - i else j + n - i;
      NextTimesIsModular(i, n, k);
      if j >= i { ModUnique(i + k, n, 0, j); } else { ModUnique(i + k, n, 1, j); }
      assert NextTimes(i, n, k) == j;
    }
  }

  /** `Math.max(0, Math.min(100, p))`. */
  function Clamp(p: int): (r: int)
    ensures 0 <= r <= 100
    ensures 0 <= p <= 100 ==> r == p
    ensures p < 0 ==> r == 0
    ensures p > 100 ==> r == 100
  {
    if p < 0 then 0 else if p > 100 then 100 else p
  }

  /** The gallery's state. The slider position is a whole percentage here;
      the source's value is a floating-point percentage of the image width. */
  class BeforeAfter {
    var currentIndex: nat
    var sliderPosition: int

    ghost predicate Valid()
      reads this
    {
      currentIndex < PairCount && 0 <= sliderPosition <= 100
    }

    constructor ()
      ensures Valid()
      ensures currentIndex == 0 && sliderPosition == CenterPosition
    {
      currentIndex := 0;
      sliderPosition := CenterPosition;
    }

    /** A thumbnail click; thumbnails exist only for the valid indices. */
    method GoToSlide(index: nat)
      requires Valid() && index < PairCount
      modifies this
      ensures Valid()
      ensures currentIndex == index && sliderPosition == CenterPosition
    {
      currentIndex := index;
      sliderPosition := CenterPosition;
    }

    method NextSlide()
      requires Valid()
      modifies this
      ensures Valid()
      ensures currentIndex == NextIndex(old(currentIndex), PairCount)
      ensures sliderPosition == CenterPosition
    {
      currentIndex := if currentIndex == PairCount - 1 then 0 else currentIndex + 1;
      sliderPosition := CenterPosition;
    }

    method PrevSlide()
      requires Valid()
      modifies this
      ensures Valid()
      ensures currentIndex == PrevIndex(old(currentIndex), PairCount)
      ensures sliderPosition == CenterPosition
    {
      currentIndex := if currentIndex == 0 then PairCount - 1 else currentIndex - 1;
      sliderPosition := CenterPosition;
    }

    /** A mouse move over the image; `percentage` is the mouse's position
        as a percentage of the image width, and it is only taken while the
        left button alone is held (`buttons == 1`). */
    method HandleMouseMove(buttons: int, percentage: int)
      requires Valid()
      modifies this
      ensures Valid() && currentIndex == old(currentIndex)
      ensures buttons == 1 ==> sliderPosition == Clamp(percentage)
      ensures buttons != 1 ==> sliderPosition == old(sliderPosition)
    {
      if buttons == 1 {
        sliderPosition := if percentage < 0 then 0 else if percentage > 100 then 100 else percentage;
      }
    }

    /** A touch move over the image: always taken. */
    method HandleTouchMove(percentage: int)
      requires Valid()
      modifies this
      ensures Valid() && currentIndex == old(currentIndex)
      ensures sliderPosition == Clamp(percentage)
    {
      sliderPosition := if percentage < 0 then 0 else if percentage > 100 then 100 else percentage;
    }
  }
}
