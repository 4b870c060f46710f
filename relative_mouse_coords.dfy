/** The pointer tracker of src/useRelativeMouseCoords.ts: the clamping of a
    pointer event to the box of the element it was dispatched on, the choice of
    the debounce delay, and the (coords, isWithin) state that the move, enter
    and leave handlers update. */
module RelativeMouseCoords {
  import opened Wrappers

  /** Delay, in milliseconds, used when the caller gives none: 60 updates a second. */
  const DefaultDelay: real := 1000.0 / 60.0

  /** The element an event is dispatched on: the left and top of its bounding
      client rectangle (None when missing or NaN) and its client size, which
      the DOM reports as a non-negative whole number of pixels. */
  datatype Target = Target(left: Option<real>, top: Option<real>, clientWidth: nat, clientHeight: nat)

  /** A pointer event: viewport coordinates (None when missing or NaN) and the
      element it is currently being dispatched on, if any. */
  datatype PointerEvent = PointerEvent(clientX: Option<real>, clientY: Option<real>, currentTarget: Option<Target>)

  datatype Coords = Coords(x: real, y: real)

  /** `n || 0` on a number that may be missing. */
  function OrZero(n: Option<real>): real
  {
    n.GetOr(0.0)
  }

  /** `clientX - left` before clamping; every missing term counts as 0. */
  function OffsetX(event: Option<PointerEvent>): real
  {
    match event
    case None => 0.0
    case Some(e) =>
      OrZero(e.clientX) - (match e.currentTarget case None => 0.0 case Some(t) => OrZero(t.left))
  }

  /** `clientY - top` before clamping; every missing term counts as 0. */
  function OffsetY(event: Option<PointerEvent>): real
  {
    match event
    case None => 0.0
    case Some(e) =>
      OrZero(e.clientY) - (match e.currentTarget case None => 0.0 case Some(t) => OrZero(t.top))
  }

  /** The target's clientWidth, 0 (falsy) when there is no target. */
  function Width(event: Option<PointerEvent>): nat
  {
    if event.Some? && event.value.currentTarget.Some? then event.value.currentTarget.value.clientWidth else 0
  }

  /** The target's clientHeight, 0 (falsy) when there is no target. */
  function Height(event: Option<PointerEvent>): nat
  {
    if event.Some? && event.value.currentTarget.Some? then event.value.currentTarget.value.clientHeight else 0
  }

  /** `relativeXY`: the pointer position relative to the target's box, first
      raised to 0 on each axis, then lowered to the target's client size on
      each axis where that size is non-zero. */
  function RelativeXY(event: Option<PointerEvent>): (r: Coords)
    // never negative
    ensures r.x >= 0.0 && r.y >= 0.0
    // never beyond a non-zero client size
    ensures Width(event) != 0 ==> r.x <= Width(event) as real
    ensures Height(event) != 0 ==> r.y <= Height(event) as real
    // an offset already inside the box is returned unchanged
    ensures 0.0 <= OffsetX(event) && (Width(event) == 0 || OffsetX(event) <= Width(event) as real) ==> r.x == OffsetX(event)
    ensures 0.0 <= OffsetY(event) && (Height(event) == 0 || OffsetY(event) <= Height(event) as real) ==> r.y == OffsetY(event)
    // an offset before the box is moved to its edge
    ensures OffsetX(event) < 0.0 ==> r.x == 0.0
    ensures OffsetY(event) < 0.0 ==> r.y == 0.0
    // an offset past a non-zero client size is moved to the far edge
    ensures Width(event) != 0 && OffsetX(event) > Width(event) as real ==> r.x == Width(event) as real
    ensures Height(event) != 0 && OffsetY(event) > Height(event) as real ==> r.y == Height(event) as real
  {
    var x0 := OffsetX(event);
    var y0 := OffsetY(event);
    var y1 := if y0 < 0.0 then 0.0 else y0;
    var x1 := if x0 < 0.0 then 0.0 else x0;
    var h, w := Height(event), Width(event);
    var y2 := if h != 0 && y1 > h as real then h as real else y1;
    var x2 := if w != 0 && x1 > w as real then w as real else x1;
    Coords(x2, y2)
  }

  /** Without a target, or with a zero client size, there is no upper clamp:
      each coordinate is its offset raised to 0. */
  lemma NoUpperClampWithoutSize(event: Option<PointerEvent>)
    ensures Width(event) == 0 ==> RelativeXY(event).x == (if OffsetX(event) < 0.0 then 0.0 else OffsetX(event))
    ensures Height(event) == 0 ==> RelativeXY(event).y == (if OffsetY(event) < 0.0 then 0.0 else OffsetY(event))
  {
  }

  /** With no event at all the result is the origin. */
  lemma NoEventIsOrigin()
    ensures RelativeXY(None) == Coords(0.0, 0.0)
  {
  }

  /** x depends only on clientX, left and clientWidth; y only on clientY, top and clientHeight. */
  lemma AxesIndependent(e1: Option<PointerEvent>, e2: Option<PointerEvent>)
    ensures OffsetX(e1) == OffsetX(e2) && Width(e1) == Width(e2) ==> RelativeXY(e1).x == RelativeXY(e2).x
    ensures OffsetY(e1) == OffsetY(e2) && Height(e1) == Height(e2) ==> RelativeXY(e1).y == RelativeXY(e2).y
  {
  }

  /** A box at (10, 20) of client size 100 x 50: a pointer at (5, 15) is before
      both edges and gives (0, 0); a pointer at (200, 30) is past the right edge
      and gives (100, 10). */
  lemma BoxExamples()
    ensures var box := Target(Some(10.0), Some(20.0), 100, 50);
      && RelativeXY(Some(PointerEvent(Some(5.0), Some(15.0), Some(box)))) == Coords(0.0, 0.0)
      && RelativeXY(Some(PointerEvent(Some(200.0), Some(30.0), Some(box)))) == Coords(100.0, 10.0)
  {
  }

  /** The debounce delay actually used: the default when none is given; an
      explicit delay, 0 included, is kept. */
  function SelectDelay(delay: Option<real>): (d: real)
    ensures delay.None? ==> d == DefaultDelay
    ensures delay.Some? ==> d == delay.value
    ensures delay.None? || delay.value >= 0.0 ==> d >= 0.0
  {
    if delay.None? then DefaultDelay else delay.value
  }

  /** What the tracker exposes: the last coordinates and whether the pointer is
      over the element. */
  datatype TrackerState = TrackerState(coords: Coords, isWithin: bool)

  /** Coordinates are never negative. */
  ghost predicate Sane(s: TrackerState)
  {
    s.coords.x >= 0.0 && s.coords.y >= 0.0
  }

  /** The tracker before any event: at the origin, not hovering. */
  const Initial := TrackerState(Coords(0.0, 0.0), false)

  /** What a handler receives: the debounced move callback firing with the
      event as seen during its dispatch, a `mouseenter`, or a `mouseleave`. */
  datatype Input = Fire(event: Option<PointerEvent>) | Enter | Leave

  /** The effect of one handler on the tracker's state. */
  function Apply(s: TrackerState, input: Input): TrackerState
  {
    match input
    case Fire(e) => s.(coords := RelativeXY(e))
    case Enter => s.(isWithin := true)
    case Leave => s.(isWithin := false)
  }

  /** The state after the handlers have run on `inputs`, in order. */
  function Run(s: TrackerState, inputs: seq<Input>): (r: TrackerState)
    requires Sane(s)
    ensures Sane(r)
    decreases |inputs|
  {
    if inputs == [] then s else Run(Apply(s, inputs[0]), inputs[1..])
  }

  /** Reference for `isWithin`: set by the last enter or leave, else unchanged. */
  function LastHover(inputs: seq<Input>, before: bool): bool
  {
    if inputs == [] then before
    else match inputs[|inputs| - 1]
      case Enter => true
      case Leave => false
      case Fire(_) => LastHover(inputs[..|inputs| - 1], before)
  }

  /** Reference for `coords`: those of the last firing, else unchanged. */
  function LastCoords(inputs: seq<Input>, before: Coords): Coords
  {
    if inputs == [] then before
    else match inputs[|inputs| - 1]
      case Fire(e) => RelativeXY(e)
      case _ => LastCoords(inputs[..|inputs| - 1], before)
  }

  /** Running one more input is applying it to the state reached so far. */
  lemma {:induction false} RunSnoc(s: TrackerState, inputs: seq<Input>, last: Input)
    requires Sane(s)
    ensures Run(s, inputs + [last]) == Apply(Run(s, inputs), last)
    decreases |inputs|
  {
    if inputs == [] {
      assert [] + [last] == [last];
    } else {
      assert (inputs + [last])[1..] == inputs[1..] + [last];
      RunSnoc(Apply(s, inputs[0]), inputs[1..], last);
    }
  }

  /** The state after a stream of inputs is decided by the last firing (for
      coords) and the last enter or leave (for isWithin), independently: moves
      never touch the hover flag and enter/leave never touch the coordinates. */
  lemma {:induction false} RunIsLastInput(s: TrackerState, inputs: seq<Input>)
    requires Sane(s)
    ensures Run(s, inputs) == TrackerState(LastCoords(inputs, s.coords), LastHover(inputs, s.isWithin))
    decreases |inputs|
  {
    if inputs != [] {
      var n := |inputs| - 1;
      assert inputs == inputs[..n] + [inputs[n]];
      RunSnoc(s, inputs[..n], inputs[n]);
      RunIsLastInput(s, inputs[..n]);
    }
  }

  /** A stream of firings alone leaves isWithin as it was. */
  lemma {:induction false} FiringsKeepHover(inputs: seq<Input>, before: bool)
    requires forall i :: 0 <= i < |inputs| ==> inputs[i].Fire?
    ensures LastHover(inputs, before) == before
    decreases |inputs|
  {
    if inputs != [] {
      FiringsKeepHover(inputs[..|inputs| - 1], before);
    }
  }

  /** Enter then leave, with any firings in between or after, ends with the
      pointer outside; with the leave left off, inside. */
  lemma EnterThenLeave(s: TrackerState, between: seq<Input>, after: seq<Input>)
    requires Sane(s)
    requires forall i :: 0 <= i < |between| ==> between[i].Fire?
    requires forall i :: 0 <= i < |after| ==> after[i].Fire?
    ensures Run(s, [Enter] + between).isWithin
    ensures !Run(s, [Enter] + between + [Leave] + after).isWithin
  {
    RunIsLastInput(s, [Enter] + between);
    RunIsLastInput(Apply(s, Enter), between);
    FiringsKeepHover(between, true);
    var leaving := [Enter] + between + [Leave];
    RunIsLastInput(s, leaving + after);
    RunSnoc(s, [Enter] + between, Leave);
    FiringsKeepHover(after, false);
    LastHoverAppend(leaving, after, s.isWithin);
  }

  /** Firings appended to a stream do not change its hover reference. */
  lemma {:induction false} LastHoverAppend(inputs: seq<Input>, after: seq<Input>, before: bool)
    requires forall i :: 0 <= i < |after| ==> after[i].Fire?
    ensures LastHover(inputs + after, before) == LastHover(inputs, before)
    decreases |after|
  {
    if after == [] {
      assert inputs + after == inputs;
    } else {
      var n := |after| - 1;
      var whole := inputs + after;
      assert whole[..|whole| - 1] == inputs + after[..n];
      assert whole[|whole| - 1] == after[n];
      LastHoverAppend(inputs, after[..n], before);
    }
  }

  /** The hook's state, updated in place by its three handlers. */
  class Tracker {
    const delay: real
    var coords: Coords
    var isWithin: bool

    ghost function State(): TrackerState
      reads this
    {
      TrackerState(coords, isWithin)
    }

    ghost predicate Valid()
      reads this
    {
      Sane(State())
    }

    /** A fresh tracker: the delay chosen, coordinates at the origin, not hovering. */
    constructor (delay: Option<real>)
      ensures this.delay == SelectDelay(delay)
      ensures State() == Initial && Valid()
    {
      this.delay := SelectDelay(delay);
      coords := Coords(0.0, 0.0);
      isWithin := false;
    }

    /** The debounced move update taking effect: coordinates from `relativeXY`
        on the event as it was during dispatch (see DeferredXY for the hook as
        written), inside the element's box; hover flag untouched. */
    method Move(event: Option<PointerEvent>)
      requires Valid()
      modifies this
      ensures Valid()
      ensures State() == Apply(old(State()), Fire(event))
      ensures coords == RelativeXY(event) && isWithin == old(isWithin)
      ensures Width(event) != 0 ==> coords.x <= Width(event) as real
      ensures Height(event) != 0 ==> coords.y <= Height(event) as real
    {
      coords := RelativeXY(event);
    }

    /** `mouseenter`: hovering, coordinates untouched. */
    method Enter()
      requires Valid()
      modifies this
      ensures Valid()
      ensures State() == Apply(old(State()), Input.Enter)
      ensures isWithin && coords == old(coords)
    {
      isWithin := true;
    }

    /** `mouseleave`: not hovering, coordinates untouched. */
    method Exit()
      requires Valid()
      modifies this
      ensures Valid()
      ensures State() == Apply(old(State()), Leave)
      ensures !isWithin && coords == old(coords)
    {
      isWithin := false;
    }
  }

  /** The event object as the debounced callback sees it: the callback runs
      from a timer after dispatch has finished, and the DOM resets
      `currentTarget` to null when dispatch finishes. */
  function AfterDispatch(event: Option<PointerEvent>): (r: Option<PointerEvent>)
    ensures r.Some? <==> event.Some?
    ensures r.Some? ==> r.value.currentTarget.None? && r.value.clientX == event.value.clientX && r.value.clientY == event.value.clientY
  {
    match event
    case None => None
    case Some(e) => Some(e.(currentTarget := None))
  }

  /** The hook as written: `relativeXY` applied to the event when the
      debounced callback fires, after dispatch. The element's box is lost:
      the result is the viewport position, only raised to 0. */
  function DeferredXY(event: Option<PointerEvent>): (r: Coords)
    ensures event.None? ==> r == Coords(0.0, 0.0)
    ensures event.Some? ==> var cx, cy := OrZero(event.value.clientX), OrZero(event.value.clientY);
      r == Coords(if cx < 0.0 then 0.0 else cx, if cy < 0.0 then 0.0 else cy)
  {
    RelativeXY(AfterDispatch(event))
  }

  /** The box at (10, 20) of client size 100 x 50 with the pointer at (200, 30):
      the hook as written reports (200, 30), outside the element, where
      `relativeXY` on the dispatched event gives (100, 10). */
  lemma DeferredXYIgnoresBox()
    ensures var e := Some(PointerEvent(Some(200.0), Some(30.0), Some(Target(Some(10.0), Some(20.0), 100, 50))));
      && DeferredXY(e) == Coords(200.0, 30.0)
      && RelativeXY(e) == Coords(100.0, 10.0)
      && DeferredXY(e).x > Width(e) as real
  {
  }
}
