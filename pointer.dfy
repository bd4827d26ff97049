/** The pointer state of src/main.js (lines 9-21): two `THREE.Vector4`
    records, `mouse` and `prevMouse`, updated in place by the `mousemove` and
    `mouseleave` listeners, and the two shader guards that read them
    (line 67 in the velocity solver, line 186 in the ink pass). */
module Pointer {

  /** A 4-component vector; coordinates are exact reals. */
  datatype Vec4 = Vec4(x: real, y: real, z: real, w: real)

  const Zero: Vec4 := Vec4(0.0, 0.0, 0.0, 0.0)

  /** The window size captured once at load (`sizes`, lines 4-7). */
  datatype Sizes = Sizes(width: real, height: real)

  predicate ValidSizes(sizes: Sizes) {
    sizes.width > 0.0 && sizes.height > 0.0
  }

  /** The values held by the two shared vectors. */
  datatype State = State(mouse: Vec4, prevMouse: Vec4)

  /** Both vectors start as (0, 0, 0, 0) (lines 9-10). */
  const Initial: State := State(Zero, Zero)

  /** The two window events the program listens to. */
  datatype Event = MouseMove(clientX: real, clientY: real) | MouseLeave

  /** One listener run on the values of the two vectors: `prevMouse` takes a
      copy of `mouse`; a move then overwrites x, y (normalised, y flipped) and
      z, leaving w alone; a leave zeroes all four components. */
  function Step(s: State, e: Event, sizes: Sizes): State
    requires ValidSizes(sizes)
  {
    match e
    case MouseMove(cx, cy) =>
      State(s.mouse.(x := cx / sizes.width, y := 1.0 - cy / sizes.height, z := 1.0), s.mouse)
    case MouseLeave =>
      State(Zero, s.mouse)
  }

  /** The state after the listeners have run on `events`, in order. */
  function Replay(s: State, events: seq<Event>, sizes: Sizes): State
    requires ValidSizes(sizes)
  {
    if events == [] then s
    else Step(Replay(s, events[..|events| - 1], sizes), events[|events| - 1], sizes)
  }

  lemma ReplaySnoc(s: State, events: seq<Event>, e: Event, sizes: Sizes)
    requires ValidSizes(sizes)
    ensures Replay(s, events + [e], sizes) == Step(Replay(s, events, sizes), e, sizes)
  {
    assert (events + [e])[..|events|] == events;
  }

  /** Neither listener ever writes a non-zero w: from vectors whose w is 0,
      every sequence of events leaves both w components at 0. */
  lemma {:induction false} ReplayKeepsWZero(s: State, events: seq<Event>, sizes: Sizes)
    requires ValidSizes(sizes)
    requires s.mouse.w == 0.0 && s.prevMouse.w == 0.0
    ensures Replay(s, events, sizes).mouse.w == 0.0
    ensures Replay(s, events, sizes).prevMouse.w == 0.0
  {
    if events != [] {
      ReplayKeepsWZero(s, events[..|events| - 1], sizes);
    }
  }

  /** The forcing guard of the velocity solver, `mouse.w > 1. && prevMouse.z > 1.`
      (line 67). In buffer A its second operand is not the pointer's previous
      vector but the texel at (0, 0) of the velocity field (line 119), so it
      is an arbitrary sample here. */
  predicate ForcingActive(mouse: Vec4, sample: Vec4) {
    mouse.w > 1.0 && sample.z > 1.0
  }

  /** The mouse-drag force is never applied: whatever the events and whatever
      the sampled texel, the guard is false. */
  lemma ForcingGuardUnreachable(events: seq<Event>, sample: Vec4, sizes: Sizes)
    requires ValidSizes(sizes)
    ensures !ForcingActive(Replay(Initial, events, sizes).mouse, sample)
  {
    ReplayKeepsWZero(Initial, events, sizes);
  }

  /** The ink splat guard, `uMouse.z > 0.0 && prevMouse.z > 0.0` (line 186). */
  predicate SplatArmed(s: State) {
    s.mouse.z > 0.0 && s.prevMouse.z > 0.0
  }

  predicate EndsWithMove(events: seq<Event>) {
    events != [] && events[|events| - 1].MouseMove?
  }

  /** From the initial state, `mouse.z` is 1 exactly when the latest event
      was a move, and 0 otherwise (also before any event). */
  lemma PressedIffLastMove(events: seq<Event>, sizes: Sizes)
    requires ValidSizes(sizes)
    ensures Replay(Initial, events, sizes).mouse.z == if EndsWithMove(events) then 1.0 else 0.0
  {
  }

  /** The splat fires exactly when the two latest events were both moves: a
      leave disarms it for the next two events, because `prevMouse` keeps the
      zeroed vector for one more event. */
  lemma SplatGuardIff(events: seq<Event>, sizes: Sizes)
    requires ValidSizes(sizes)
    ensures SplatArmed(Replay(Initial, events, sizes))
        <==> EndsWithMove(events) && EndsWithMove(events[..|events| - 1])
  {
    if events != [] {
      var prefix := events[..|events| - 1];
      PressedIffLastMove(prefix, sizes);
      PressedIffLastMove(events, sizes);
    } else {
      PressedIffLastMove(events, sizes);
    }
  }

  /** The two listeners' globals, `mouse` and `prevMouse`, with the window
      size they divide by and, as a ghost, the events seen so far. */
  class PointerTracker {
    const sizes: Sizes
    var mouse: Vec4
    var prevMouse: Vec4
    ghost var events: seq<Event>

    /** The vectors hold exactly what the listeners computed from the events. */
    ghost predicate Valid()
      reads this
    {
      ValidSizes(sizes) && State(mouse, prevMouse) == Replay(Initial, events, sizes)
    }

    constructor (width: real, height: real)
      requires width > 0.0 && height > 0.0
      ensures Valid() && sizes == Sizes(width, height)
      ensures mouse == Zero && prevMouse == Zero && events == []
    {
      sizes := Sizes(width, height);
      mouse := Zero;
      prevMouse := Zero;
      events := [];
    }

    /** The `mousemove` listener (lines 11-16). */
    method OnMouseMove(clientX: real, clientY: real)
      requires Valid()
      modifies this
      ensures Valid() && events == old(events) + [MouseMove(clientX, clientY)]
      ensures prevMouse == old(mouse)
      ensures mouse.x == clientX / sizes.width && mouse.y == 1.0 - clientY / sizes.height
      ensures mouse.z == 1.0 && mouse.w == old(mouse).w
    {
      prevMouse := mouse;
      mouse := mouse.(x := clientX / sizes.width);
      mouse := mouse.(y := 1.0 - clientY / sizes.height);
      mouse := mouse.(z := 1.0);
      ReplaySnoc(Initial, events, MouseMove(clientX, clientY), sizes);
      events := events + [MouseMove(clientX, clientY)];
    }

    /** The `mouseleave` listener (lines 18-21). */
    method OnMouseLeave()
      requires Valid()
      modifies this
      ensures Valid() && events == old(events) + [MouseLeave]
      ensures prevMouse == old(mouse)
      ensures mouse == Zero
    {
      prevMouse := mouse;
      mouse := Zero;
      ReplaySnoc(Initial, events, MouseLeave, sizes);
      events := events + [MouseLeave];
    }

    /** What the velocity shader's forcing guard sees when it reads the live
        `mouse` vector through its uniform: always false. */
    method ForcingGuard(sample: Vec4) returns (active: bool)
      requires Valid()
      ensures !active
    {
      ForcingGuardUnreachable(events, sample, sizes);
      active := mouse.w > 1.0 && sample.z > 1.0;
    }

    /** What the ink shader's splat guard sees through its two uniforms: true
        exactly when the two latest events were moves. */
    method SplatGuard() returns (armed: bool)
      requires Valid()
      ensures armed <==> EndsWithMove(events) && EndsWithMove(events[..|events| - 1])
    {
      SplatGuardIff(events, sizes);
      armed := mouse.z > 0.0 && prevMouse.z > 0.0;
    }
  }
}
