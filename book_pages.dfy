/** The page animator: a left bar, a right bar and a stack of page bars
    whose rotations and offsets are rewritten by a fixed cascade of five
    phases, each scheduled at a fixed multiple of the animation scale. */
module BookPages {

  /** Number of page bars between the left and the right bar. */
  const PageCount: nat := 13
  /** Stagger between successive page bars, as a multiple of the scale. */
  const PageDelayFactor: real := 0.21
  /** Period of the repeating cascade, as a multiple of the scale. */
  const RepeatFactor: real := 10.0

  /** The five deferred assignment groups of one cascade, in schedule order. */
  datatype Phase = CloseRight | OpenLeft | CloseLeft | ResetPages | ResetRight

  const Cascade: seq<Phase> := [CloseRight, OpenLeft, CloseLeft, ResetPages, ResetRight]

  /** When a phase runs after the cascade starts, as a multiple of the scale. */
  function PhaseFactor(p: Phase): real
  {
    match p
    case CloseRight => 0.0
    case OpenLeft => 2.7
    case CloseLeft => 5.0
    case ResetPages => 5.25
    case ResetRight => 7.0
  }

  /** When a phase runs after the cascade starts: the first at once, every
      other one later, and all within one repeat period. */
  function PhaseOffset(scale: real, p: Phase): (t: real)
    ensures p == CloseRight ==> t == 0.0
    ensures scale > 0.0 ==> 0.0 <= t < scale * RepeatFactor
    ensures scale > 0.0 && p != CloseRight ==> t > 0.0
  {
    scale * PhaseFactor(p)
  }

  /** For a positive scale the phases are scheduled at strictly increasing
      offsets, the first at the start, and all within one repeat period. */
  lemma CascadeOffsetsIncreasing(scale: real)
    requires scale > 0.0
    ensures PhaseOffset(scale, Cascade[0]) == 0.0
    ensures forall i, j :: 0 <= i < j < |Cascade| ==>
      PhaseOffset(scale, Cascade[i]) < PhaseOffset(scale, Cascade[j])
    ensures forall i :: 0 <= i < |Cascade| ==> PhaseOffset(scale, Cascade[i]) < scale * RepeatFactor
  {
  }

  /** Animation delay of page bar num: none for the first bar, and for a
      positive scale never negative and at most the last bar's 2.52 x scale. */
  function PageDelay(scale: real, num: nat): (d: real)
    requires num < PageCount
    ensures num == 0 ==> d == 0.0
    ensures scale > 0.0 ==> 0.0 <= d <= scale * 2.52
  {
    var step, n, rest := scale * PageDelayFactor, num as real, (PageCount - 1 - num) as real;
    assert scale > 0.0 ==> step * n >= 0.0 && step * rest >= 0.0 by {
      if scale > 0.0 {
        assert step > 0.0 && n >= 0.0 && rest >= 0.0;
      }
    }
    assert step * n + step * rest == step * 12.0;
    step * n
  }

  /** For a positive scale the page bars start one after the other, the
      first without delay. */
  lemma PageDelaysIncreasing(scale: real, i: nat, j: nat)
    requires scale > 0.0
    requires i < j < PageCount
    ensures PageDelay(scale, 0) == 0.0
    ensures PageDelay(scale, i) < PageDelay(scale, j)
  {
    var step, gap := scale * PageDelayFactor, (j - i) as real;
    assert step > 0.0 && gap > 0.0;
    assert step * gap > 0.0;
    assert PageDelay(scale, j) == PageDelay(scale, i) + step * gap;
  }

  /** Every page bar has started turning before the left bar opens. */
  lemma PagesStartBeforeLeftOpens(scale: real, num: nat)
    requires scale > 0.0
    requires num < PageCount
    ensures PageDelay(scale, num) < PhaseOffset(scale, OpenLeft)
  {
  }

  /** The rotations (degrees) and offsets the cascade rewrites. */
  datatype Bars = Bars(
    leftYOffset: real, leftEndDegree: real,
    rightYOffset: real, rightEndDegree: real,
    pagesDegree: real)

  /** The bars as the view is mounted. */
  const InitialBars: Bars := Bars(0.0, 0.0, -20.0, 0.0, 0.0)

  /** The assignments of one phase. */
  function ApplyPhase(p: Phase, b: Bars): (r: Bars)
    // the right bar is written only when it closes and when it is reset
    ensures p != CloseRight && p != ResetRight ==>
      r.rightYOffset == b.rightYOffset && r.rightEndDegree == b.rightEndDegree
    // the left bar is written only when it opens and when it closes
    ensures p != OpenLeft && p != CloseLeft ==>
      r.leftYOffset == b.leftYOffset && r.leftEndDegree == b.leftEndDegree
    // the page bars are written only when the right bar closes and when they are reset
    ensures p != CloseRight && p != ResetPages ==> r.pagesDegree == b.pagesDegree
  {
    match p
    case CloseRight => b.(rightEndDegree := 180.0, rightYOffset := 0.0, pagesDegree := 180.0)
    case OpenLeft => b.(leftYOffset := 20.0, leftEndDegree := 180.0)
    case CloseLeft => b.(leftYOffset := 0.0, leftEndDegree := 0.0)
    case ResetPages => b.(pagesDegree := 0.0)
    case ResetRight => b.(rightEndDegree := 0.0, rightYOffset := -20.0)
  }

  /** A phase writes constants, so running it twice in a row is the same as
      running it once. */
  lemma PhaseIdempotent(p: Phase, b: Bars)
    ensures ApplyPhase(p, ApplyPhase(p, b)) == ApplyPhase(p, b)
  {
  }

  /** The phases run one after the other. A bar that no phase of the list
      writes keeps its values. */
  function RunPhases(phases: seq<Phase>, b: Bars): (r: Bars)
    ensures CloseRight !in phases && ResetRight !in phases ==>
      r.rightYOffset == b.rightYOffset && r.rightEndDegree == b.rightEndDegree
    ensures OpenLeft !in phases && CloseLeft !in phases ==>
      r.leftYOffset == b.leftYOffset && r.leftEndDegree == b.leftEndDegree
    ensures CloseRight !in phases && ResetPages !in phases ==> r.pagesDegree == b.pagesDegree
  {
    if phases == [] then b else RunPhases(phases[1..], ApplyPhase(phases[0], b))
  }

  /** Whatever the bars were, a whole cascade leaves them at their mounted
      values, so the repeated cascade starts from the same state each time. */
  lemma CascadeRestoresBars(b: Bars)
    ensures RunPhases(Cascade, b) == InitialBars
  {
    var b1 := ApplyPhase(CloseRight, b);
    var b2 := ApplyPhase(OpenLeft, b1);
    var b3 := ApplyPhase(CloseLeft, b2);
    var b4 := ApplyPhase(ResetPages, b3);
    var b5 := ApplyPhase(ResetRight, b4);
    calc {
      RunPhases(Cascade, b);
      RunPhases(Cascade[1..], b1);
      { assert Cascade[1..][1..] == Cascade[2..]; }
      RunPhases(Cascade[2..], b2);
      { assert Cascade[2..][1..] == Cascade[3..]; }
      RunPhases(Cascade[3..], b3);
      { assert Cascade[3..][1..] == Cascade[4..]; }
      RunPhases(Cascade[4..], b4);
      { assert Cascade[4..][1..] == []; }
      b5;
    }
  }

  /** The page animator's state. */
  class BookPagesView {
    var didAppear: bool
    var leftYOffset: real
    var leftEndDegree: real
    var rightYOffset: real
    var rightEndDegree: real
    var pagesDegree: real

    /** The rewritten fields as one value. */
    function Current(): Bars
      reads this
    {
      Bars(leftYOffset, leftEndDegree, rightYOffset, rightEndDegree, pagesDegree)
    }

    /** The view as mounted. */
    constructor ()
      ensures Current() == InitialBars && !didAppear
    {
      didAppear := false;
      leftYOffset := 0.0;
      leftEndDegree := 0.0;
      rightYOffset := -20.0;
      rightEndDegree := 0.0;
      pagesDegree := 0.0;
    }

    /** Phase at offset 0: flip the appearance flag, close the right bar
        and turn the page bars over. */
    method CloseRightPhase()
      modifies this`didAppear, this`rightEndDegree, this`rightYOffset, this`pagesDegree
      ensures didAppear == !old(didAppear)
      ensures rightEndDegree == 180.0 && rightYOffset == 0.0 && pagesDegree == 180.0
      ensures Current() == ApplyPhase(CloseRight, old(Current()))
    {
      didAppear := !didAppear;

      rightEndDegree := 180.0;
      rightYOffset := 0.0;

      pagesDegree := 180.0;
    }

    /** Phase at 2.7 x scale: open the left bar. */
    method OpenLeftPhase()
      modifies this`leftYOffset, this`leftEndDegree
      ensures leftYOffset == 20.0 && leftEndDegree == 180.0
      ensures Current() == ApplyPhase(OpenLeft, old(Current()))
    {
      leftYOffset := 20.0;
      leftEndDegree := 180.0;
    }

    /** Phase at 5 x scale: close the left bar. */
    method CloseLeftPhase()
      modifies this`leftYOffset, this`leftEndDegree
      ensures leftYOffset == 0.0 && leftEndDegree == 0.0
      ensures Current() == ApplyPhase(CloseLeft, old(Current()))
    {
      leftYOffset := 0.0;
      leftEndDegree := 0.0;
    }

    /** Phase at 5.25 x scale: turn the page bars back. */
    method ResetPagesPhase()
      modifies this`pagesDegree
      ensures pagesDegree == 0.0
      ensures Current() == ApplyPhase(ResetPages, old(Current()))
    {
      pagesDegree := 0.0;
    }

    /** Phase at 7 x scale: reset the right bar. */
    method ResetRightPhase()
      modifies this`rightEndDegree, this`rightYOffset
      ensures rightEndDegree == 0.0 && rightYOffset == -20.0
      ensures Current() == ApplyPhase(ResetRight, old(Current()))
    {
      rightEndDegree := 0.0;
      rightYOffset := -20.0;
    }

    /** One whole cascade, its deferred phases run in schedule order: every
        bar field ends at its mounted value and only the flag is flipped. */
    method AnimatePages()
      modifies this
      ensures didAppear == !old(didAppear)
      ensures Current() == RunPhases(Cascade, old(Current()))
      ensures Current() == InitialBars
    {
      ghost var b0 := Current();
      CloseRightPhase();
      OpenLeftPhase();
      CloseLeftPhase();
      ResetPagesPhase();
      ResetRightPhase();
      CascadeRestoresBars(b0);
    }
  }
}
