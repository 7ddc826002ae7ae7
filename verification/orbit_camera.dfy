/**
 The preview viewport's camera: a pan gesture orbits it, a button resets it,
 and the arrow-key actions nudge it. While a pan is in progress the camera
 keeps a baseline, the transform it had when the pan began; every rotation
 during the pan is computed from that baseline and the pan's cumulative
 translation, never from the previous event.
 */
module OrbitCamera {
  import opened Common
  import opened Geometry

  /** Radians of rotation per point of pan translation. */
  const Sensitivity: real := 0.01

  /** The distance of one nudge. */
  const NudgeStep: real := 0.1

  /** A 2D translation in the view, in points. */
  datatype Point = Point(x: real, y: real)

  /** The states a pan gesture recogniser reports; `UnknownState` stands for
      states added to the platform after this application was written. The
      platform's `recognized` state is the same value as `ended`, so a
      recognised pan takes the `ended` path and the separate `recognized`
      case of the handler is never reached. */
  datatype GestureState = Possible | Began | Changed | Ended | Cancelled | Failed | UnknownState

  /** An input to the viewport: a pan callback with its cumulative translation,
      the reset button, or one of the four nudge actions. */
  datatype Event =
    | Pan(state: GestureState, translation: Point)
    | ResetCamera
    | MoveRight
    | MoveLeft
    | MoveUp
    | MoveDown

  /** The camera's transform and the baseline of the pan in progress. */
  datatype Camera = Camera(transform: Transform, baseline: Option<Transform>)

  /** A freshly created camera: identity transform, no pan in progress. */
  const Initial: Camera := Camera(IdentityTransform, None)

  /** The orbit rotation: the baseline rotation, then a turn about Y by the
      horizontal translation, then a turn about X against the vertical one. */
  function OrbitRotation(base: Rotation, t: Point): Rotation {
    Product(Product(base, AxisAngle(Y, t.x * Sensitivity)), AxisAngle(X, -t.y * Sensitivity))
  }

  /** Sets the rotation computed from `initial` and `t`; translation and scale
      are kept. */
  function RotateCamera(current: Transform, t: Point, initial: Transform): (r: Transform)
    ensures r.translation == current.translation && r.scale == current.scale
    ensures r.rotation == OrbitRotation(initial.rotation, t)
  {
    current.(rotation := OrbitRotation(initial.rotation, t))
  }

  /** The rotation does not depend on the transform being replaced. */
  lemma RotationIgnoresCurrent(c1: Transform, c2: Transform, t: Point, initial: Transform)
    ensures RotateCamera(c1, t, initial).rotation == RotateCamera(c2, t, initial).rotation
  {
  }

  /** Moves the camera by `delta` along axis `a`; rotation, scale, the other
      two coordinates and the baseline are kept. */
  function Nudge(c: Camera, a: Axis, delta: real): (r: Camera)
    ensures r.baseline == c.baseline
    ensures r.transform.rotation == c.transform.rotation && r.transform.scale == c.transform.scale
    ensures r.transform.translation.Get(a) == c.transform.translation.Get(a) + delta
    ensures forall b: Axis :: b != a ==> r.transform.translation.Get(b) == c.transform.translation.Get(b)
  {
    var p := c.transform.translation;
    c.(transform := c.transform.(translation := p.With(a, p.Get(a) + delta)))
  }

  /** The camera after one event. */
  function Step(c: Camera, e: Event): (r: Camera)
    // a reset gives the identity transform, whatever came before
    ensures e == ResetCamera ==> r.transform == IdentityTransform && r.baseline == c.baseline
    // nudges move along one axis only
    ensures e == MoveRight ==> r == Nudge(c, X, NudgeStep)
    ensures e == MoveLeft ==> r == Nudge(c, X, -NudgeStep)
    ensures e == MoveUp ==> r == Nudge(c, Z, -NudgeStep)
    ensures e == MoveDown ==> r == Nudge(c, Z, NudgeStep)
    // pans never move or scale the camera
    ensures e.Pan? ==> r.transform.translation == c.transform.translation && r.transform.scale == c.transform.scale
  {
    match e
    case Pan(state, t) => PanStep(c, state, t)
    case ResetCamera => c.(transform := IdentityTransform)
    case MoveRight => Nudge(c, X, NudgeStep)
    case MoveLeft => Nudge(c, X, -NudgeStep)
    case MoveUp => Nudge(c, Z, -NudgeStep)
    case MoveDown => Nudge(c, Z, NudgeStep)
  }

  /** The pan-gesture callback. */
  function PanStep(c: Camera, state: GestureState, t: Point): (r: Camera)
    ensures state == Began ==>
              r.baseline == Some(c.transform) && r.transform.rotation == OrbitRotation(c.transform.rotation, t)
    ensures (state == Changed || state == Ended) && c.baseline.None? ==> r == c
    ensures state == Changed && c.baseline.Some? ==>
              r.baseline == c.baseline && r.transform.rotation == OrbitRotation(c.baseline.value.rotation, t)
    ensures state == Ended && c.baseline.Some? ==>
              r.baseline == None && r.transform.rotation == OrbitRotation(c.baseline.value.rotation, t)
    ensures state == Cancelled || state == Failed ==> r == c.(baseline := None)
    ensures state == Possible || state == UnknownState ==> r == c
    ensures r.transform.translation == c.transform.translation && r.transform.scale == c.transform.scale
  {
    match state
    case Possible => c
    case Began => Camera(RotateCamera(c.transform, t, c.transform), Some(c.transform))
    case Changed =>
      if c.baseline.None? then c
      else c.(transform := RotateCamera(c.transform, t, c.baseline.value))
    case Ended =>
      if c.baseline.None? then c
      else Camera(RotateCamera(c.transform, t, c.baseline.value), None)
    case Cancelled => c.(baseline := None)
    case Failed => c.(baseline := None)
    case UnknownState => c
  }

  /** The camera after `events`, in order. */
  function Run(c: Camera, events: seq<Event>): Camera
    decreases |events|
  {
    if events == [] then c else Step(Run(c, events[..|events| - 1]), events[|events| - 1])
  }

  /** The event ends a pan: ended, cancelled or failed. */
  predicate Closes(e: Event) {
    e.Pan? && (e.state == Ended || e.state == Cancelled || e.state == Failed)
  }

  predicate Opens(e: Event) {
    e.Pan? && e.state == Began
  }

  /** A pan began at index `i` and nothing after it ended the pan. */
  predicate OpenSince(events: seq<Event>, i: int) {
    0 <= i < |events| && Opens(events[i]) && forall j :: i < j < |events| ==> !Closes(events[j])
  }

  /** A pan is in progress after `events`. */
  predicate InProgress(events: seq<Event>) {
    exists i | 0 <= i < |events| :: OpenSince(events, i)
  }

  /** The last event that began a pan, if any did. */
  function LastBegin(events: seq<Event>): (r: Option<nat>)
    ensures r.Some? ==> r.value < |events| && Opens(events[r.value])
    ensures r.Some? ==> forall j :: r.value < j < |events| ==> !Opens(events[j])
    ensures r.None? ==> forall j :: 0 <= j < |events| ==> !Opens(events[j])
    decreases |events|
  {
    if events == [] then None
    else if Opens(events[|events| - 1]) then Some(|events| - 1)
    else LastBegin(events[..|events| - 1])
  }

  lemma InProgressStep(events: seq<Event>)
    requires events != []
    ensures var last := events[|events| - 1];
      InProgress(events) <==> Opens(last) || (!Closes(last) && InProgress(events[..|events| - 1]))
  {
    var prefix := events[..|events| - 1];
    var last := events[|events| - 1];
    if InProgress(events) {
      var i :| 0 <= i < |events| && OpenSince(events, i);
      if i < |prefix| {
        assert OpenSince(prefix, i) by {
          forall j | i < j < |prefix| ensures !Closes(prefix[j]) {
            assert prefix[j] == events[j];
          }
        }
      }
    }
    if Opens(last) {
      assert OpenSince(events, |events| - 1);
    } else if !Closes(last) && InProgress(prefix) {
      var i :| 0 <= i < |prefix| && OpenSince(prefix, i);
      assert OpenSince(events, i) by {
        forall j | i < j < |events| ensures !Closes(events[j]) {
          if j < |prefix| { assert events[j] == prefix[j]; }
        }
      }
    }
  }

  /**
   The baseline lifecycle, from a camera with no pan in progress: a baseline
   exists exactly when a pan began and nothing since ended, cancelled or
   failed it; and it is then the transform the camera had just before the
   last began event.
   */
  lemma {:induction false} BaselineLifecycle(c: Camera, events: seq<Event>)
    requires c.baseline.None?
    ensures Run(c, events).baseline.Some? <==> InProgress(events)
    ensures Run(c, events).baseline.Some? ==>
              LastBegin(events).Some? && Run(c, events).baseline == Some(Run(c, events[..LastBegin(events).value]).transform)
    decreases |events|
  {
    if events != [] {
      var prefix := events[..|events| - 1];
      var last := events[|events| - 1];
      BaselineLifecycle(c, prefix);
      InProgressStep(events);
      if !Opens(last) && LastBegin(events).Some? {
        assert events[..LastBegin(events).value] == prefix[..LastBegin(events).value];
      }
    }
  }

  /** For a freshly created camera: a baseline exists exactly while a pan is
      in progress. */
  lemma BaselineFromRest(events: seq<Event>)
    ensures Run(Initial, events).baseline.Some? <==> InProgress(events)
  {
    BaselineLifecycle(Initial, events);
  }

  /** Events that leave a pan's baseline alone: anything but a began, ended,
      cancelled or failed pan callback. */
  predicate KeepsBaseline(e: Event) {
    !Opens(e) && !Closes(e)
  }

  lemma {:induction false} BaselineKept(c: Camera, events: seq<Event>)
    requires forall j :: 0 <= j < |events| ==> KeepsBaseline(events[j])
    ensures Run(c, events).baseline == c.baseline
    decreases |events|
  {
    if events != [] {
      BaselineKept(c, events[..|events| - 1]);
    }
  }

  /**
   Replay: during a pan, a changed or ended callback with cumulative
   translation `t` sets the rotation from the baseline and `t` alone, so any
   two histories since the pan began yield the same rotation for the same `t`.
   */
  lemma ReplayGivesSameRotation(c: Camera, mid1: seq<Event>, mid2: seq<Event>, state: GestureState, t: Point)
    requires c.baseline.Some?
    requires forall j :: 0 <= j < |mid1| ==> KeepsBaseline(mid1[j])
    requires forall j :: 0 <= j < |mid2| ==> KeepsBaseline(mid2[j])
    requires state == Changed || state == Ended
    ensures Step(Run(c, mid1), Pan(state, t)).transform.rotation == OrbitRotation(c.baseline.value.rotation, t)
    ensures Step(Run(c, mid1), Pan(state, t)).transform.rotation == Step(Run(c, mid2), Pan(state, t)).transform.rotation
  {
    BaselineKept(c, mid1);
    BaselineKept(c, mid2);
  }

  /** A whole pan from a camera at rest: after began with `t0`, any events that
      keep the baseline, and a changed or ended with `t`, the rotation is the
      orbit of the rotation the camera had when the pan began. */
  lemma PanFromBegin(c: Camera, t0: Point, mid: seq<Event>, state: GestureState, t: Point)
    requires forall j :: 0 <= j < |mid| ==> KeepsBaseline(mid[j])
    requires state == Changed || state == Ended
    ensures Step(Run(Step(c, Pan(Began, t0)), mid), Pan(state, t)).transform.rotation
              == OrbitRotation(c.transform.rotation, t)
  {
    ReplayGivesSameRotation(Step(c, Pan(Began, t0)), mid, mid, state, t);
  }

  /** Reset restores the identity transform after any history. */
  lemma ResetAfterAnything(c: Camera, events: seq<Event>)
    ensures Run(c, events + [ResetCamera]).transform == IdentityTransform
  {
    assert (events + [ResetCamera])[..|events|] == events;
  }

  /** Right then left, and up then down, return the camera where it was. */
  lemma NudgesCancel(c: Camera)
    ensures Step(Step(c, MoveRight), MoveLeft) == c
    ensures Step(Step(c, MoveLeft), MoveRight) == c
    ensures Step(Step(c, MoveUp), MoveDown) == c
    ensures Step(Step(c, MoveDown), MoveUp) == c
  {
  }
}
