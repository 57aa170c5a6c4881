/**
 * The "Personalized Healthcare Plan" card carousel.
 *
 * The viewport width picks one of three breakpoints; each breakpoint has a
 * layout (card width, gap, cards in view); the carousel keeps a current index
 * that the two arrow buttons move with wrap-around, and the card track is
 * shifted left by that many card-plus-gap steps.
 */
module Carousel {

  /** A card: its React key, its heading and its picture; the description and colour class are not carried. */
  datatype Card = Card(id: nat, title: string, image: string)

  /** The five cards of the plan, in display order. */
  const Cards: seq<Card> := [
    Card(1, "Prescriptions", "/cards/1.png"),
    Card(2, "Supplements", "/cards/2.png"),
    Card(3, "Add-on Testing", "/cards/3.png"),
    Card(4, "Answers 24/7", "/cards/4.png"),
    Card(5, "Nutrition", "/cards/5.png")
  ]

  /** Cards are rendered keyed by id, so the ids must be pairwise distinct. */
  lemma CardIdsDistinct()
    ensures forall a, b :: 0 <= a < b < |Cards| ==> Cards[a].id != Cards[b].id
  {
  }

  // ---------------------------------------------------------------------------
  // Breakpoints

  datatype Breakpoint = Desktop | Tablet | Mobile

  /** Breakpoints ordered by the viewport widths they cover, narrowest first. */
  function Rank(b: Breakpoint): nat
  {
    match b
    case Mobile => 0
    case Tablet => 1
    case Desktop => 2
  }

  /** The classification the resize handler applies to the inner window width. */
  function Classify(width: int): (b: Breakpoint)
    ensures b == Desktop <==> 1024 <= width
    ensures b == Tablet <==> 768 <= width < 1024
    ensures b == Mobile <==> width < 768
  {
    if width >= 1024 then Desktop
    else if width >= 768 then Tablet
    else Mobile
  }

  /** A wider viewport never yields a narrower breakpoint. */
  lemma ClassifyMonotone(w1: int, w2: int)
    requires w1 <= w2
    ensures Rank(Classify(w1)) <= Rank(Classify(w2))
  {
  }

  // ---------------------------------------------------------------------------
  // Layout

  /**
   * A CSS length of the form `vw * 1vw + rem * 1rem`, i.e. what `calc()` makes
   * of a sum of viewport-width and root-em terms.
   */
  datatype Length = Length(vw: real, rem: real)
  {
    function Plus(other: Length): Length
    {
      Length(vw + other.vw, rem + other.rem)
    }

    function Scale(k: real): Length
    {
      Length(k * vw, k * rem)
    }
  }

  const Zero: Length := Length(0.0, 0.0)

  datatype Layout = Layout(cardWidth: Length, gap: Length, items: real)

  /** The per-breakpoint configuration table. */
  function Config(b: Breakpoint): (l: Layout)
    ensures 0.0 < l.cardWidth.vw && l.cardWidth.rem == 0.0
    ensures l.gap.vw == 0.0 && 0.0 < l.gap.rem
    ensures 1.0 <= l.items
  {
    match b
    case Desktop => Layout(Length(26.0, 0.0), Length(0.0, 2.0), 3.5)
    case Tablet => Layout(Length(42.0, 0.0), Length(0.0, 1.5), 2.0)
    case Mobile => Layout(Length(85.0, 0.0), Length(0.0, 1.0), 1.0)
  }

  /**
   * The largest index the arrows move to: the number of cards minus the number
   * of whole cards in view.
   */
  function MaxIndex(b: Breakpoint): (m: int)
    ensures 0 < m < |Cards|
    ensures m + Config(b).items.Floor == |Cards|
    ensures b == Desktop ==> m == 2
    ensures b == Tablet ==> m == 3
    ensures b == Mobile ==> m == 4
  {
    |Cards| - Config(b).items.Floor
  }

  /** A wider breakpoint shows more cards and so needs fewer steps. */
  lemma MaxIndexAntitone(b1: Breakpoint, b2: Breakpoint)
    requires Rank(b1) <= Rank(b2)
    ensures MaxIndex(b2) <= MaxIndex(b1)
  {
  }

  // ---------------------------------------------------------------------------
  // Navigation

  predicate InRange(i: int, max: int)
  {
    0 <= i <= max
  }

  /** The "next" arrow: one step forward, or back to the first card. */
  function Next(i: int, max: int): (r: int)
    ensures r == 0 || r == i + 1
    ensures 0 <= i ==> (r == 0 <==> max <= i)
    ensures 0 <= i && 0 <= max ==> InRange(r, max)
  {
    if i < max then i + 1 else 0
  }

  /** The "previous" arrow: one step back, or on to the last position. */
  function Prev(i: int, max: int): (r: int)
    ensures r == max || r == i - 1
    ensures 0 <= max ==> (r == i - 1 <==> 0 < i)
    ensures InRange(i, max) ==> InRange(r, max)
  {
    if i > 0 then i - 1 else max
  }

  /** Within the range, the two arrows undo each other. */
  lemma NextPrevInverse(i: int, max: int)
    requires InRange(i, max)
    ensures Prev(Next(i, max), max) == i
    ensures Next(Prev(i, max), max) == i
  {
  }

  datatype Direction = Forward | Backward

  function Step(d: Direction, i: int, max: int): int
  {
    match d
    case Forward => Next(i, max)
    case Backward => Prev(i, max)
  }

  /** The index after `k` presses of the arrow `d`. */
  function Steps(d: Direction, i: int, max: int, k: nat): int
    decreases k
  {
    if k == 0 then i else Steps(d, Step(d, i, max), max, k - 1)
  }

  lemma {:induction false} StepsCompose(d: Direction, i: int, max: int, a: nat, b: nat)
    ensures Steps(d, i, max, a + b) == Steps(d, Steps(d, i, max, a), max, b)
    decreases a
  {
    if a > 0 {
      StepsCompose(d, Step(d, i, max), max, a - 1, b);
    }
  }

  /** Forward presses that do not reach the end simply count up. */
  lemma {:induction false} StepsForwardCount(i: int, max: int, k: nat)
    requires 0 <= i && i + k <= max
    ensures Steps(Forward, i, max, k) == i + k
    decreases k
  {
    if k > 0 {
      StepsForwardCount(i + 1, max, k - 1);
    }
  }

  /** Backward presses that do not reach the start simply count down. */
  lemma {:induction false} StepsBackwardCount(i: int, max: int, k: nat)
    requires k <= i
    ensures Steps(Backward, i, max, k) == i - k
    decreases k
  {
    if k > 0 {
      StepsBackwardCount(i - 1, max, k - 1);
    }
  }

  /** `max + 1` presses of either arrow come back to where they started. */
  lemma {:induction false} StepsCycle(d: Direction, i: int, max: int)
    requires InRange(i, max)
    ensures Steps(d, i, max, max + 1) == i
  {
    match d
    case Forward =>
      StepsCompose(Forward, i, max, max - i, i + 1);
      StepsForwardCount(i, max, max - i);
      assert Steps(Forward, max, max, i + 1) == Steps(Forward, 0, max, i);
      StepsForwardCount(0, max, i);
    case Backward =>
      StepsCompose(Backward, i, max, i, max + 1 - i);
      StepsBackwardCount(i, max, i);
      assert Steps(Backward, 0, max, max + 1 - i) == Steps(Backward, max, max, max - i);
      StepsBackwardCount(max, max, max - i);
  }

  /**
   * An index above the range (left behind when the breakpoint changes) is
   * recovered by one "next", but "previous" walks down through the out-of-range
   * positions one at a time and reaches the range only after `i - max` presses.
   */
  lemma OutOfRangeRecovery(i: int, max: int)
    requires 0 <= max < i
    ensures Next(i, max) == 0
    ensures Steps(Backward, i, max, i - max) == max
    ensures forall k: nat :: k < i - max ==> max < Steps(Backward, i, max, k)
  {
    StepsBackwardCount(i, max, i - max);
    forall k: nat | k < i - max
      ensures max < Steps(Backward, i, max, k)
    {
      StepsBackwardCount(i, max, k);
    }
  }

  // ---------------------------------------------------------------------------
  // Track offset

  /** The distance between the left edges of two neighbouring cards. */
  function Pitch(l: Layout): Length
  {
    l.cardWidth.Plus(l.gap)
  }

  /** The horizontal translation of the card track for index `i`. */
  function Offset(i: int, l: Layout): (o: Length)
    ensures i == 0 ==> o == Zero
  {
    Pitch(l).Scale(-(i as real))
  }

  /** The shift of two indices adds up: the offset is linear in the index. */
  lemma OffsetAdditive(i: int, j: int, l: Layout)
    ensures Offset(i + j, l) == Offset(i, l).Plus(Offset(j, l))
  {
  }

  /**
   * Each further index moves the track left by exactly one card width plus
   * one gap, in both its vw and rem parts.
   */
  lemma OffsetStep(i: int, l: Layout)
    ensures Offset(i + 1, l) == Offset(i, l).Plus(Length(-(l.cardWidth.vw + l.gap.vw), -(l.cardWidth.rem + l.gap.rem)))
  {
  }

  /**
   * The left edge of card `k` in the flex track: the cards before it, each
   * followed by one gap.
   */
  function CardLeft(k: nat, l: Layout): Length
  {
    if k == 0 then Zero else CardLeft(k - 1, l).Plus(l.cardWidth).Plus(l.gap)
  }

  /** Shifting the track by the offset of index `i` brings card `i` to the track's left edge. */
  lemma {:induction false} OffsetAlignsCard(i: nat, l: Layout)
    ensures CardLeft(i, l).Plus(Offset(i, l)) == Zero
  {
    if i > 0 {
      OffsetAlignsCard(i - 1, l);
      OffsetStep(i - 1, l);
    }
  }

  /** On every breakpoint a later index shifts the track strictly further left. */
  lemma OffsetMovesLeft(i: int, j: int, b: Breakpoint)
    requires i < j
    ensures Offset(j, Config(b)).vw < Offset(i, Config(b)).vw
    ensures Offset(j, Config(b)).rem < Offset(i, Config(b)).rem
  {
  }

  // ---------------------------------------------------------------------------
  // The component state

  /** The carousel's two pieces of component state. */
  class CarouselState {
    var currentIndex: int
    var breakpoint: Breakpoint

    /**
     * The invariant of every reachable state: the index is never negative and
     * never above the largest maximum of any breakpoint (the mobile one, 4).
     */
    predicate Valid()
      reads this
    {
      0 <= currentIndex <= MaxIndex(Mobile)
    }

    /** Both arrows keep the index within the current breakpoint's range. */
    predicate InView()
      reads this
    {
      InRange(currentIndex, MaxIndex(breakpoint))
    }

    /** The initial render: first card, desktop layout. */
    constructor ()
      ensures currentIndex == 0 && breakpoint == Desktop
      ensures Valid() && InView()
    {
      currentIndex := 0;
      breakpoint := Desktop;
    }

    /** The resize handler: reclassifies the width and leaves the index alone. */
    method HandleResize(width: int)
      requires Valid()
      modifies this
      ensures breakpoint == Classify(width)
      ensures currentIndex == old(currentIndex)
      ensures Valid()
    {
      if width >= 1024 {
        breakpoint := Desktop;
      } else if width >= 768 {
        breakpoint := Tablet;
      } else {
        breakpoint := Mobile;
      }
    }

    method HandleNext()
      requires Valid()
      modifies this
      ensures currentIndex == Next(old(currentIndex), MaxIndex(breakpoint))
      ensures breakpoint == old(breakpoint)
      ensures Valid() && InView()
    {
      if currentIndex < |Cards| - Config(breakpoint).items.Floor {
        currentIndex := currentIndex + 1;
      } else {
        currentIndex := 0;
      }
    }

    method HandlePrev()
      requires Valid()
      modifies this
      ensures currentIndex == Prev(old(currentIndex), MaxIndex(breakpoint))
      ensures breakpoint == old(breakpoint)
      ensures Valid()
      ensures old(InView()) ==> InView()
    {
      if currentIndex > 0 {
        currentIndex := currentIndex - 1;
      } else {
        currentIndex := |Cards| - Config(breakpoint).items.Floor;
      }
    }

    /** The translation applied to the card track in the current state. */
    function TrackOffset(): (o: Length)
      reads this
      ensures o == Offset(currentIndex, Config(breakpoint))
      ensures currentIndex == 0 ==> o == Zero
    {
      Offset(currentIndex, Config(breakpoint))
    }
  }

  /**
   * Resizing does not clamp the index: four "next" presses on a phone, then a
   * resize to desktop width, leave the index at 4, above the desktop maximum of
   * 2; from there "previous" goes to 3, still out of range, and "next" then
   * returns to 0.
   */
  method ResizeLeavesIndexOutOfRange() returns (afterResize: int, afterPrev: int, afterNext: int)
    ensures afterResize == 4 && MaxIndex(Desktop) < afterResize
    ensures afterPrev == 3 && MaxIndex(Desktop) < afterPrev
    ensures afterNext == 0
  {
    var c := new CarouselState();
    c.HandleResize(500);
    c.HandleNext();
    c.HandleNext();
    c.HandleNext();
    c.HandleNext();
    assert c.InView();
    c.HandleResize(1280);
    afterResize := c.currentIndex;
    c.HandlePrev();
    afterPrev := c.currentIndex;
    c.HandleNext();
    afterNext := c.currentIndex;
  }
}
