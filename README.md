# Book loading animation: state model

This project models the logic behind the "book loading" animation of
SwiftUI-Animations. Rendering and timers are not modelled. Three modules
follow the three Swift files.

- `BookLoader` (`book_loader.dfy`) models `BookLoaderView.swift`. It has the
  enums `LoaderPart`, `AnimationStage` and `LoaderState` as datatypes. The
  lookups `offset(for:part:)` and `angle(for:part:)` are total functions
  over the 2 × 2 × 3 cases. The view is a class `BookLoaderView`. Its
  fields are `bookState`, `currentIndex`, the `shouldAnimate` gate and the
  six transform fields (two cover offsets, two cover rotations, the holder
  offset and the holder rotation). `getNextCase`, `animateBook` and
  `animateBookEnds` are methods that update these fields in place. The
  closure that `animateBook` schedules is the method `FinishBookStep`. The
  tap handler without its timers is `Tap`. `RunCycles` mounts the view,
  taps once and runs any number of cycles. The delays of the repeating
  cycle are pure functions of the animation scale. They are used only to
  prove that the steps run in the order the model runs them.
- `BookPages` (`book_pages.dfy`) models `BookPagesView.swift`. The class
  `BookPagesView` holds `didAppear` and the five bar fields.
  `animatePages` runs five phase methods in schedule order. Each phase is
  tied to the pure phase function `ApplyPhase`. The pure `RunPhases` folds
  `ApplyPhase` over the five phases. The per-bar delay
  `animationScale * 0.21 * num` is the function `PageDelay`.
- `BookHold` (`book_hold.dfy`) models `BookHold.swift`. `path(in:)` is a
  function from a rectangle to its four polyline points.

Offsets are `real` points and angles are `real` degrees (`.zero` is 0).
The table and bar values (84, 55.75, 28, 20, 180, 90) are exact in binary,
so the state logic has no rounding. The timing factors (0.4, 0.21, 2.7,
0.05, 0.9, 1.6, 3.4) are not, and the model computes with them exactly
(see "## Left out").

The repeating timer calls `animateBook` (BookLoaderView.swift:80-82).
`animateBook` schedules the state advance followed by `animateBookEnds`
(BookLoaderView.swift:107-110).

## Model

| member | source | states |
|---|---|---|
| `BookLoader.Offset` | SwiftUIAnimations/Animations/BookLoading/BookLoaderView.swift:136-184 | The left cover's x offset is always -84 and the right cover's always 84. A cover's y offset is 55.75 exactly when the stage is `end` and it is the state's swinging cover; otherwise it is 0. The holder is at (0, 0) at `begin` and at (±28, -28) at `end`, with the sign set by the state |
| `BookLoader.Angle` | SwiftUIAnimations/Animations/BookLoading/BookLoaderView.swift:185-212 | Every angle is 0 at `begin`. At `end` the swinging cover turns 180°, the other cover stays at 0 and the holder turns 90°, all signed by the state (+ for closedRight, − for closedLeft) |
| `BookLoader.EndOffsets` | SwiftUIAnimations/Animations/BookLoading/BookLoaderView.swift:161-209 | The literal `end` entries: closedRight gives (-84, 55.75), (84, 0) and (28, -28); closedLeft gives (-84, 0), (84, 55.75) and (-28, -28); holder angles are 90 and -90; the swinging covers' angles are 180 and -180 |
| `BookLoader.MirrorSymmetry` | SwiftUIAnimations/Animations/BookLoading/BookLoaderView.swift:136-212 | Swapping the state and the left and right covers negates every x offset and every angle and keeps every y offset, for both stages and all parts |
| `BookLoader.BeginFrameIsNeutral` | SwiftUIAnimations/Animations/BookLoading/BookLoaderView.swift:137-188 | The `begin` stage does not depend on the state. For either state the six `begin` targets are the same neutral frame: left cover (-84, 0), right cover (84, 0), holder (0, 0), every angle 0 |
| `BookLoader.NextIndex` | SwiftUIAnimations/Animations/BookLoading/BookLoaderView.swift:87-95 | From any index that does not trap (-1 up to allCases.count-1), the index arithmetic of `getNextCase` lands in [0, allCases.count) and equals the old index plus one, modulo allCases.count |
| `BookLoader.NextIndexMirrors` | SwiftUIAnimations/Animations/BookLoading/BookLoaderView.swift:87-95 | Advancing a valid index names the other state |
| `BookLoader.IndexAfter` | SwiftUIAnimations/Animations/BookLoading/BookLoaderView.swift:87-95 | Any number of successive `getNextCase` steps keeps the index in range. After at least one step it is never -1 |
| `BookLoader.IndexAfterShift` | SwiftUIAnimations/Animations/BookLoading/BookLoaderView.swift:87-95 | n + 1 steps are n steps followed by one more `getNextCase` step |
| `BookLoader.IndexAfterFromZero` | SwiftUIAnimations/Animations/BookLoading/BookLoaderView.swift:87-95 | Starting from index 0, the index after n steps is n mod 2 |
| `BookLoader.StatesAlternate` | SwiftUIAnimations/Animations/BookLoading/BookLoaderView.swift:87-95 | Starting from index 0, the k-th call returns closedLeft for odd k and closedRight for even k, so each call returns the other state |
| `BookLoader.AnimateBookTime` | SwiftUIAnimations/Animations/BookLoading/BookLoaderView.swift:77-82 | The k-th `animateBook` is defined as the one-shot 3.4 × scale delay plus k repeat periods of 5 × scale. The contract states that for a positive scale no call fires before the initial delay, whatever k; this needs the earlier calls' bound |
| `BookLoader.AdvanceTime` | SwiftUIAnimations/Animations/BookLoading/BookLoaderView.swift:107-110 | The state advance of the k-th `animateBook` fires 1.6 × scale after it, so for a positive scale strictly later |
| `BookLoader.ScheduleOrdered` | SwiftUIAnimations/Animations/BookLoading/BookLoaderView.swift:46-110 | For a positive scale, each `animateBook` fires after the tap's `animateBookEnds` and before its own state advance. The advance's delayed cover rotation (0.05 + 0.9) ends before the next `animateBook` (5 later). So the sequential order of steps is the scheduled order |
| `BookLoader.BookLoaderView.constructor` | SwiftUIAnimations/Animations/BookLoading/BookLoaderView.swift:12-27 | The mounted view is in closedRight at index 0 with the gate off. Its six transforms are exactly closedLeft's `end` frame |
| `BookLoader.BookLoaderView.GetNextCase` | SwiftUIAnimations/Animations/BookLoading/BookLoaderView.swift:87-95 | The new index is `NextIndex` of the old one and stays in range. The returned state is `allCases[currentIndex]` after the update. Only `currentIndex` changes |
| `BookLoader.BookLoaderView.AnimateBook` | SwiftUIAnimations/Animations/BookLoading/BookLoaderView.swift:96-106 | The six transforms become the current state's `end` frame. `bookState`, `currentIndex` and the gate are unchanged |
| `BookLoader.BookLoaderView.AnimateBookEnds` | SwiftUIAnimations/Animations/BookLoading/BookLoaderView.swift:112-125 | The six transforms become the current state's `begin` frame, so all three rotations are 0 and the holder is at (0, 0) whatever the state. `bookState`, `currentIndex` and the gate are unchanged |
| `BookLoader.BookLoaderView.FinishBookStep` | SwiftUIAnimations/Animations/BookLoading/BookLoaderView.swift:107-110 | From a valid state, the book moves to the other state. The index advances by `NextIndex` and still names the state. The transforms are the new state's `begin` frame |
| `BookLoader.BookLoaderView.Tap` | SwiftUIAnimations/Animations/BookLoading/BookLoaderView.swift:73-76 | The gate is flipped and the transforms become the current state's `begin` frame. The state and index are unchanged |
| `BookLoader.RunCycles` | SwiftUIAnimations/Animations/BookLoading/BookLoaderView.swift:73-110 | After mounting, one tap and k cycles of `animateBook` followed by its scheduled step, the book is in closedLeft for odd k and closedRight for even k. The transforms are that state's `begin` frame, so the holder is at (0, 0) with rotation 0. The gate is on |
| `BookPages.PhaseOffset` | SwiftUIAnimations/Animations/BookLoading/BookPagesView.swift:67-102 | The close-right phase runs at once. For a positive scale every other phase runs strictly later, and every phase runs before the 10 × scale repeat (line 59) |
| `BookPages.CascadeOffsetsIncreasing` | SwiftUIAnimations/Animations/BookLoading/BookPagesView.swift:67-102 | For a positive scale the five phases run at strictly increasing offsets 0 < 2.7s < 5s < 5.25s < 7s. All of them fall before the 10s repeat |
| `BookPages.PageDelay` | SwiftUIAnimations/Animations/BookLoading/BookPagesView.swift:46-52 | The delay of bar num is `scale * 0.21 * num`. It is 0 for bar 0, and for a positive scale it lies between 0 and the last bar's 2.52 × scale |
| `BookPages.PageDelaysIncreasing` | SwiftUIAnimations/Animations/BookLoading/BookPagesView.swift:46-52 | For a positive scale the page-bar delay is 0 for bar 0 and strictly increasing over bars 0..<13 |
| `BookPages.PagesStartBeforeLeftOpens` | SwiftUIAnimations/Animations/BookLoading/BookPagesView.swift:46-83 | Every page bar's delay (at most 2.52s) is before the left bar opens at 2.7s |
| `BookPages.ApplyPhase` | SwiftUIAnimations/Animations/BookLoading/BookPagesView.swift:68-102 | Each phase leaves alone the fields it does not own. The right bar is written only by the close-right and reset-right phases. The left bar is written only by open-left and close-left. The page bars are written only by close-right and reset-pages |
| `BookPages.PhaseIdempotent` | SwiftUIAnimations/Animations/BookLoading/BookPagesView.swift:68-102 | Running a phase twice in a row equals running it once |
| `BookPages.RunPhases` | SwiftUIAnimations/Animations/BookLoading/BookPagesView.swift:68-102 | Running a list of phases in order keeps the values of every bar that no phase in the list writes: the right bar unless close-right or reset-right is in the list, the left bar unless open-left or close-left is, the pages unless close-right or reset-pages is |
| `BookPages.CascadeRestoresBars` | SwiftUIAnimations/Animations/BookLoading/BookPagesView.swift:12-102 | Whatever the bars were before, the five phases in order leave them at their mounted values: left (0, 0°), right (-20, 0°), pages 0° |
| `BookPages.BookPagesView.constructor` | SwiftUIAnimations/Animations/BookLoading/BookPagesView.swift:12-17 | The mounted bars are the initial values and `didAppear` is false |
| `BookPages.BookPagesView.CloseRightPhase` | SwiftUIAnimations/Animations/BookLoading/BookPagesView.swift:68-77 | `didAppear` flips. The right bar goes to 180° with y offset 0 and the pages go to 180°. Nothing else changes |
| `BookPages.BookPagesView.OpenLeftPhase` | SwiftUIAnimations/Animations/BookLoading/BookPagesView.swift:80-83 | The left bar goes to y offset 20 and 180°. Nothing else changes |
| `BookPages.BookPagesView.CloseLeftPhase` | SwiftUIAnimations/Animations/BookLoading/BookPagesView.swift:88-91 | The left bar goes back to y offset 0 and 0°. Nothing else changes |
| `BookPages.BookPagesView.ResetPagesPhase` | SwiftUIAnimations/Animations/BookLoading/BookPagesView.swift:94-96 | Only the pages' rotation changes, to 0° |
| `BookPages.BookPagesView.ResetRightPhase` | SwiftUIAnimations/Animations/BookLoading/BookPagesView.swift:99-102 | The right bar goes back to 0° and y offset -20. Nothing else changes |
| `BookPages.BookPagesView.AnimatePages` | SwiftUIAnimations/Animations/BookLoading/BookPagesView.swift:67-103 | One whole cascade equals `RunPhases` over the five phases. Every bar field ends at its mounted value and `didAppear` is negated |
| `BookHold.MidX` | SwiftUIAnimations/Animations/BookLoading/BookHold.swift:13 | `rect.midX` is as far from the rectangle's left edge as from its right edge |
| `BookHold.MidY` | SwiftUIAnimations/Animations/BookLoading/BookHold.swift:14 | `rect.midY` is as far from the rectangle's top edge as from its bottom edge |
| `BookHold.HoldPath` | SwiftUIAnimations/Animations/BookLoading/BookHold.swift:12-22 | The path has four points. The first and last lie on the midpoint's horizontal line. Both arms are vertical and drop 12. The bracket is 56 wide and centred on midX, so it runs from midX-28 to midX+28 |
| `BookHold.HoldPathDependsOnlyOnMidpoint` | SwiftUIAnimations/Animations/BookLoading/BookHold.swift:13-14 | Two rectangles with the same midpoint give the same path, whatever their sizes |
| `BookHold.HoldPathTranslates` | SwiftUIAnimations/Animations/BookLoading/BookHold.swift:13-20 | Moving the rectangle by (dx, dy) moves every point of the path by (dx, dy) |
| `BookHold.HoldPathSymmetric` | SwiftUIAnimations/Animations/BookLoading/BookHold.swift:13-20 | Reflecting the path in the vertical line through midX gives the same points in reverse order |

## Left out

- Rendering is not modelled: `body` composition, capsule frames, colours, stroke styles and previews. They have no stateable behaviour.
- Animation curves and durations (`withAnimation`, `easeOut`, `linear`, `.delay`) are not modelled. The framework interpolates. Only the assigned target values are modelled. `BookLoaderView.AnimateBook` therefore folds the two animated blocks into one step.
- Timers are not modelled: the 0.3 s polling loop and its `invalidate` (BookPagesView.swift:56-64), the 10 × scale page repeat and the tap's initial and repeating book timers. Each deferred block is an explicit method, called in schedule order. `ScheduleOrdered` and `CascadeOffsetsIncreasing` justify that order for one cycle.
- Overlapping cascades from repeated taps are not modelled. They come from interleaved timers, not sequential logic.
- The `shouldAnimate` binding is modelled only as the flag that `Tap` flips. Its effect on the page animator goes through the polling timer, which is left out.
- `BookLoader.BookLoaderView.GetNextCase` requires an index from -1 to allCases.count-1. Outside that range Swift's array lookup traps. The view's own index never leaves it (`Valid`).
- Timing arithmetic is done exactly over `real`. The source multiplies `TimeInterval` (Double) values, and 0.4, 0.21, 2.7, 0.05, 0.9, 1.6 and 3.4 are not exact in binary, so its delays are rounded products. The model ignores that rounding. The proved orderings have margins far wider than one rounding step.
- The view's animation scale 0.4 (BookLoaderView.swift:34) is not a field of the model. The timing functions take the scale as a parameter, and their lemmas hold for every positive scale.
- Layout-only constants are not modelled: the cover widths and heights, the pages' offset and the bars' x offset. The unused `heightOffsetTop` (BookLoaderView.swift:43) is not modelled either.
- `Path` is not modelled. A path is the sequence of its points.
