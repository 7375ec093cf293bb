/** The book loader: a two-state cyclic state machine whose states look up
    the target offsets and rotations of the two covers and the holder in a
    fixed table, and a view object that copies those targets into its six
    transform fields step by step. */
module BookLoader {

  /** The visual element a transform applies to. */
  datatype LoaderPart = LeftCover | RightCover | Holder

  /** Which endpoint of a sub-animation is looked up. */
  datatype AnimationStage = Begin | End

  /** The side the book is closed on; advances round-robin. */
  datatype LoaderState = ClosedRight | ClosedLeft

  /** A two-dimensional offset (CGSize). */
  datatype Size = Size(width: real, height: real)

  // Offset constants of the table.
  const WidthOffsetLeft: real := -84.0
  const WidthOffsetRight: real := 84.0
  const HolderHeightOffsetTop: real := -28.0
  const HolderHeightOffsetBottom: real := 28.0
  const HeightOffsetBottom: real := 55.75

  // Timing constants, all multiples of the animation scale.
  const BookEndDuration: real := 0.9
  const BookEndDelay: real := 0.05
  const InterStateDuration: real := 1.6
  const AnimateBookInitialDelay: real := 3.4
  const RepeatDelay: real := 5.0

  /** The states in declaration order (CaseIterable.allCases). */
  const AllCases: seq<LoaderState> := [ClosedRight, ClosedLeft]

  /** The cover that swings over at the end stage of a state. */
  function MovingCover(state: LoaderState): LoaderPart
  {
    match state
    case ClosedRight => LeftCover
    case ClosedLeft => RightCover
  }

  /** Direction of the end-stage rotations: clockwise for closedRight. */
  function Turn(state: LoaderState): real
  {
    match state
    case ClosedRight => 1.0
    case ClosedLeft => -1.0
  }

  /** The offset table, total over the 2 x 2 x 3 cases. */
  function Offset(state: LoaderState, stage: AnimationStage, part: LoaderPart): (r: Size)
    // a cover never moves sideways: only its height varies
    ensures part == LeftCover ==> r.width == WidthOffsetLeft
    ensures part == RightCover ==> r.width == WidthOffsetRight
    // only the swinging cover is displaced, and only at the end stage
    ensures part != Holder ==>
      r.height == (if stage == End && part == MovingCover(state) then HeightOffsetBottom else 0.0)
    // the holder sits at the origin at the begin stage and is lifted
    // towards the swinging cover's target side at the end stage
    ensures part == Holder ==>
      r == (if stage == Begin then Size(0.0, 0.0)
            else Size(Turn(state) * HolderHeightOffsetBottom, HolderHeightOffsetTop))
  {
    match stage
    case Begin =>
      (match state
       case ClosedRight =>
         (match part
          case LeftCover => Size(WidthOffsetLeft, 0.0)
          case RightCover => Size(WidthOffsetRight, 0.0)
          case Holder => Size(0.0, 0.0))
       case ClosedLeft =>
         (match part
          case LeftCover => Size(WidthOffsetLeft, 0.0)
          case RightCover => Size(WidthOffsetRight, 0.0)
          case Holder => Size(0.0, 0.0)))
    case End =>
      (match state
       case ClosedRight =>
         (match part
          case LeftCover => Size(WidthOffsetLeft, HeightOffsetBottom)
          case RightCover => Size(WidthOffsetRight, 0.0)
          case Holder => Size(HolderHeightOffsetBottom, HolderHeightOffsetTop))
       case ClosedLeft =>
         (match part
          case LeftCover => Size(WidthOffsetLeft, 0.0)
          case RightCover => Size(WidthOffsetRight, HeightOffsetBottom)
          case Holder => Size(HolderHeightOffsetTop, HolderHeightOffsetTop)))
  }

  /** The rotation table in degrees, total over the 2 x 2 x 3 cases. */
  function Angle(state: LoaderState, stage: AnimationStage, part: LoaderPart): (r: real)
    // nothing is rotated at the begin stage
    ensures stage == Begin ==> r == 0.0
    // at the end stage the swinging cover turns half a turn, the other
    // cover stays, and the holder turns a quarter, all in the state's direction
    ensures stage == End ==>
      r == Turn(state) * (if part == Holder then 90.0
                          else if part == MovingCover(state) then 180.0
                          else 0.0)
  {
    match stage
    case Begin => 0.0
    case End =>
      (match state
       case ClosedRight =>
         (match part
          case LeftCover => 180.0
          case RightCover => 0.0
          case Holder => 90.0)
       case ClosedLeft =>
         (match part
          case LeftCover => 0.0
          case RightCover => -180.0
          case Holder => -90.0))
  }

  /** The literal end-stage entries of both states. */
  lemma EndOffsets()
    ensures Offset(ClosedRight, End, LeftCover) == Size(-84.0, 55.75)
    ensures Offset(ClosedRight, End, RightCover) == Size(84.0, 0.0)
    ensures Offset(ClosedRight, End, Holder) == Size(28.0, -28.0)
    ensures Offset(ClosedLeft, End, LeftCover) == Size(-84.0, 0.0)
    ensures Offset(ClosedLeft, End, RightCover) == Size(84.0, 55.75)
    ensures Offset(ClosedLeft, End, Holder) == Size(-28.0, -28.0)
    ensures Angle(ClosedRight, End, Holder) == 90.0 && Angle(ClosedLeft, End, Holder) == -90.0
    ensures Angle(ClosedRight, End, LeftCover) == 180.0 && Angle(ClosedLeft, End, RightCover) == -180.0
  {
  }

  /** The other state. */
  function Mirror(state: LoaderState): LoaderState
  {
    match state
    case ClosedRight => ClosedLeft
    case ClosedLeft => ClosedRight
  }

  /** The part in the mirror-image position. */
  function MirrorPart(part: LoaderPart): LoaderPart
  {
    match part
    case LeftCover => RightCover
    case RightCover => LeftCover
    case Holder => Holder
  }

  /** The two states are mirror images: swapping the state and the left and
      right covers flips every horizontal offset and every rotation, and
      keeps every vertical offset. */
  lemma MirrorSymmetry(state: LoaderState, stage: AnimationStage, part: LoaderPart)
    ensures var r, m := Offset(state, stage, part), Offset(Mirror(state), stage, MirrorPart(part));
      m.width == -r.width && m.height == r.height
    ensures Angle(Mirror(state), stage, MirrorPart(part)) == -Angle(state, stage, part)
  {
  }

  /** The six transform targets of the view. */
  datatype Transforms = Transforms(
    leftCoverOffset: Size, leftRotation: real,
    holderOffset: Size, holderRotation: real,
    rightCoverOffset: Size, rightRotation: real)

  /** The six table entries of one state and stage. */
  function Frame(state: LoaderState, stage: AnimationStage): Transforms
  {
    Transforms(
      Offset(state, stage, LeftCover), Angle(state, stage, LeftCover),
      Offset(state, stage, Holder), Angle(state, stage, Holder),
      Offset(state, stage, RightCover), Angle(state, stage, RightCover))
  }

  /** The begin frame is the same neutral frame for every state: nothing is
      rotated, the holder is at the origin and the covers are level. */
  lemma BeginFrameIsNeutral(state: LoaderState)
    ensures Frame(state, Begin) == Transforms(
      Size(-84.0, 0.0), 0.0, Size(0.0, 0.0), 0.0, Size(84.0, 0.0), 0.0)
  {
  }

  /** Index arithmetic of getNextCase: wrap the last index to -1, then add one. */
  function NextIndex(i: int): (j: int)
    requires -1 <= i < |AllCases|
    ensures 0 <= j < |AllCases|
    ensures j == (i + 1) % |AllCases|
  {
    (if i == |AllCases| - 1 then -1 else i) + 1
  }

  /** Advancing the index moves to the other state. */
  lemma NextIndexMirrors(i: int)
    requires 0 <= i < |AllCases|
    ensures AllCases[NextIndex(i)] == Mirror(AllCases[i])
  {
  }

  /** The index after n successive calls of getNextCase. */
  function IndexAfter(i: int, n: nat): (r: int)
    requires -1 <= i < |AllCases|
    ensures -1 <= r < |AllCases|
    ensures n > 0 || i >= 0 ==> r >= 0
    decreases n
  {
    if n == 0 then i else IndexAfter(NextIndex(i), n - 1)
  }

  /** From index 0, the index after n calls is n modulo the number of states. */
  lemma {:induction false} IndexAfterFromZero(n: nat)
    ensures IndexAfter(0, n) == n % |AllCases|
  {
    if n > 0 {
      calc {
        IndexAfter(0, n);
        { IndexAfterShift(0, n - 1); }
        NextIndex(IndexAfter(0, n - 1));
        { IndexAfterFromZero(n - 1); }
        NextIndex((n - 1) % |AllCases|);
      }
    }
  }

  /** One more call after n calls. */
  lemma {:induction false} IndexAfterShift(i: int, n: nat)
    requires -1 <= i < |AllCases|
    ensures IndexAfter(i, n + 1) == NextIndex(IndexAfter(i, n))
    decreases n
  {
    if n > 0 {
      IndexAfterShift(NextIndex(i), n - 1);
    }
  }

  /** Starting from index 0, the k-th call returns closedLeft for odd k and
      closedRight for even k: closedLeft, closedRight, closedLeft, ... */
  lemma StatesAlternate(k: nat)
    ensures AllCases[IndexAfter(0, k)] == if k % 2 == 1 then ClosedLeft else ClosedRight
    ensures AllCases[IndexAfter(0, k + 1)] == Mirror(AllCases[IndexAfter(0, k)])
  {
    IndexAfterFromZero(k);
    IndexAfterFromZero(k + 1);
  }

  /** Time after the tap at which the k-th animateBook call fires (k from
      0): the one-shot timer fires after the initial delay and the
      repeating timer it starts fires once every repeat period after that. */
  function AnimateBookTime(scale: real, k: nat): (t: real)
    ensures scale > 0.0 ==> t >= scale * AnimateBookInitialDelay
  {
    if k == 0 then scale * AnimateBookInitialDelay
    else AnimateBookTime(scale, k - 1) + scale * RepeatDelay
  }

  /** Time after the tap at which the state advanced by the k-th
      animateBook call changes and animateBookEnds runs. */
  function AdvanceTime(scale: real, k: nat): (t: real)
    ensures scale > 0.0 ==> AnimateBookTime(scale, k) < t
  {
    AnimateBookTime(scale, k) + scale * InterStateDuration
  }

  /** For a positive scale the steps of the cycle happen in the order the
      model runs them: the tap's animateBookEnds at time 0, then each
      animateBook, its state advance, the advance's delayed cover rotation
      settling, and only then the next animateBook. */
  lemma ScheduleOrdered(scale: real, k: nat)
    requires scale > 0.0
    ensures 0.0 < AnimateBookTime(scale, k) < AdvanceTime(scale, k)
    ensures AdvanceTime(scale, k) + scale * (BookEndDelay + BookEndDuration) < AnimateBookTime(scale, k + 1)
  {
  }

  /** The loader view's state: the book state, the cyclic index, the gate
      flag shared with the page animator and the six transform targets. */
  class BookLoaderView {
    var bookState: LoaderState
    var leftCoverOffset: Size
    var leftRotationDegrees: real
    var middleBookOffset: Size
    var middleRotationDegrees: real
    var rightCoverOffset: Size
    var rightRotationDegrees: real
    var currentIndex: int
    var shouldAnimate: bool

    /** The index is in range and names the current state. */
    ghost predicate Valid()
      reads this
    {
      0 <= currentIndex < |AllCases| && bookState == AllCases[currentIndex]
    }

    /** The six transform fields as one value. */
    function Current(): Transforms
      reads this
    {
      Transforms(leftCoverOffset, leftRotationDegrees, middleBookOffset, middleRotationDegrees,
                 rightCoverOffset, rightRotationDegrees)
    }

    /** The view as mounted: closed on the right, with the covers and the
        holder drawn at closedLeft's end frame. */
    constructor ()
      ensures Valid()
      ensures bookState == ClosedRight && currentIndex == 0 && !shouldAnimate
      ensures Current() == Frame(ClosedLeft, End)
    {
      bookState := ClosedRight;
      leftCoverOffset := Size(WidthOffsetLeft, 0.0);
      leftRotationDegrees := 0.0;
      middleBookOffset := Size(HolderHeightOffsetTop, HolderHeightOffsetTop);
      middleRotationDegrees := -90.0;
      rightCoverOffset := Size(WidthOffsetRight, 55.75);
      rightRotationDegrees := -180.0;
      currentIndex := 0;
      shouldAnimate := false;
    }

    /** Advance the cyclic index and return the state it names. The index
        must be one the array lookup accepts after the step. */
    method GetNextCase() returns (next: LoaderState)
      requires -1 <= currentIndex < |AllCases|
      modifies this`currentIndex
      ensures currentIndex == NextIndex(old(currentIndex))
      ensures 0 <= currentIndex < |AllCases| && next == AllCases[currentIndex]
    {
      if currentIndex == |AllCases| - 1 {
        currentIndex := -1;
      }
      currentIndex := currentIndex + 1;
      next := AllCases[currentIndex];
    }

    /** Set the six transforms to the current state's end frame. */
    method AnimateBook()
      modifies this`leftCoverOffset, this`leftRotationDegrees, this`middleBookOffset,
               this`middleRotationDegrees, this`rightCoverOffset, this`rightRotationDegrees
      ensures Current() == Frame(bookState, End)
      ensures bookState == old(bookState) && currentIndex == old(currentIndex)
    {
      middleRotationDegrees := Angle(bookState, End, Holder);
      leftCoverOffset := Offset(bookState, End, LeftCover);
      rightCoverOffset := Offset(bookState, End, RightCover);

      leftRotationDegrees := Angle(bookState, End, LeftCover);
      rightRotationDegrees := Angle(bookState, End, RightCover);
      middleBookOffset := Offset(bookState, End, Holder);
    }

    /** Set the six transforms to the current state's begin frame: all
        rotations zero and the holder at the origin, whatever the state. */
    method AnimateBookEnds()
      modifies this`leftCoverOffset, this`leftRotationDegrees, this`middleBookOffset,
               this`middleRotationDegrees, this`rightCoverOffset, this`rightRotationDegrees
      ensures Current() == Frame(bookState, Begin)
      ensures leftRotationDegrees == 0.0 && rightRotationDegrees == 0.0 && middleRotationDegrees == 0.0
      ensures middleBookOffset == Size(0.0, 0.0)
      ensures bookState == old(bookState) && currentIndex == old(currentIndex)
    {
      middleRotationDegrees := Angle(bookState, Begin, Holder);
      middleBookOffset := Offset(bookState, Begin, Holder);

      leftCoverOffset := Offset(bookState, Begin, LeftCover);
      rightCoverOffset := Offset(bookState, Begin, RightCover);

      leftRotationDegrees := Angle(bookState, Begin, LeftCover);
      rightRotationDegrees := Angle(bookState, Begin, RightCover);
    }

    /** The step scheduled by animateBook: move to the next state and
        return to the begin frame of that state. */
    method FinishBookStep()
      requires Valid()
      modifies this
      ensures Valid()
      ensures currentIndex == NextIndex(old(currentIndex))
      ensures bookState == Mirror(old(bookState))
      ensures Current() == Frame(bookState, Begin)
      ensures shouldAnimate == old(shouldAnimate)
    {
      NextIndexMirrors(currentIndex);
      bookState := GetNextCase();
      AnimateBookEnds();
    }

    /** The tap handler without its timers: flip the gate flag of the page
        animator and start from the begin frame of the current state. */
    method Tap()
      modifies this`shouldAnimate, this`leftCoverOffset, this`leftRotationDegrees,
               this`middleBookOffset, this`middleRotationDegrees, this`rightCoverOffset,
               this`rightRotationDegrees
      ensures shouldAnimate == !old(shouldAnimate)
      ensures Current() == Frame(bookState, Begin)
      ensures bookState == old(bookState) && currentIndex == old(currentIndex)
    {
      shouldAnimate := !shouldAnimate;
      AnimateBookEnds();
    }
  }

  /** Mount the view, tap once and run k cycles of animateBook followed by
      its scheduled step: the book alternates closedLeft, closedRight, ...
      and after each cycle is back at the neutral frame. */
  method RunCycles(k: nat) returns (state: LoaderState, frame: Transforms, gate: bool)
    ensures state == if k % 2 == 1 then ClosedLeft else ClosedRight
    ensures frame == Frame(state, Begin)
    ensures frame.holderOffset == Size(0.0, 0.0) && frame.holderRotation == 0.0
    ensures gate
  {
    var view := new BookLoaderView();
    view.Tap();
    var i := 0;
    while i < k
      invariant 0 <= i <= k
      invariant view.Valid() && view.shouldAnimate
      invariant view.currentIndex == IndexAfter(0, i)
      invariant view.Current() == Frame(view.bookState, Begin)
    {
      view.AnimateBook();
      view.FinishBookStep();
      IndexAfterShift(0, i);
      i := i + 1;
    }
    StatesAlternate(k);
    BeginFrameIsNeutral(view.bookState);
    state, frame, gate := view.bookState, view.Current(), view.shouldAnimate;
  }
}
