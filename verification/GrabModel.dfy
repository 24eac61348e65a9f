/**
 * Gesture grabs: they recognize a gesture from pointer or touch motion, begin it on the layout, pass movement on
 * frame by frame and end it on release. The layout is seen through the calls made to it.
 */
module GrabModel {
  import opened Prelude

  datatype Vec = Vec(x: real, y: real)
  {
    function Plus(o: Vec): Vec {
      Vec(x + o.x, y + o.y)
    }

    function Minus(o: Vec): Vec {
      Vec(x - o.x, y - o.y)
    }

    predicate Horizontal() {
      (if x < 0.0 then -x else x) > (if y < 0.0 then -y else y)
    }

    predicate FarEnough(threshold: real) {
      x * x + y * y >= threshold * threshold
    }
  }

  // Converted, since the solver keeps rewriting vectors of real literals.
  const ZERO := Vec(0 as real, 0 as real)

  /** The layout-side gestures. */
  datatype Gesture = InteractiveMove | ViewOffset | WorkspaceSwitch

  /** Calls to the layout; a scalar update is a vector on the gesture's axis. */
  datatype Call =
    | Begin(gesture: Gesture)
    | Update(gesture: Gesture, delta: Vec)
    | End(gesture: Gesture)
    | ToggleFloating
    | ActivateWindow

  datatype Phase = Before | During(gesture: Gesture) | After(gesture: Gesture) | Broken

  function Advance(p: Phase, c: Call): Phase {
    match c
    case Begin(g) => if p == Before then During(g) else Broken
    case Update(g, _) => if p == During(g) then p else Broken
    case End(g) => if p == During(g) then After(g) else Broken
    case _ => p
  }

  /** The calls made, in order. */
  datatype Calls = NoCalls | Then(before: Calls, last: Call)

  /** How far the calls have come in one begin, updates, end of a single gesture. */
  function PhaseOf(calls: Calls): Phase {
    match calls
    case NoCalls => Before
    case Then(before, last) => Advance(PhaseOf(before), last)
  }

  /** All movement passed to the layout. */
  function Total(calls: Calls): Vec {
    match calls
    case NoCalls => ZERO
    case Then(before, last) => if last.Update? then Total(before).Plus(last.delta) else Total(before)
  }

  /** The part of a movement that a view offset or a workspace switch is driven by, the content following the finger. */
  function Against(g: Gesture, delta: Vec): Vec {
    match g
    case InteractiveMove => delta
    case ViewOffset => Vec(-delta.x, ZERO.y)
    case WorkspaceSwitch => Vec(ZERO.x, -delta.y)
  }

  // Moving a window.

  datatype MoveGrab = MoveGrab(
    start: Vec, last: Vec, location: Vec, timestamp: Option<nat>, relative: Option<Vec>,
    gesture: Option<Gesture>, enableViewOffset: bool, released: bool, calls: Calls)

  /**
   * What the rest of the compositor answers during one event: `begins` whether the layout can start the move,
   * `onStartOutput` whether the window's workspace is still on the grab's output, `over` whether the location is on
   * some output, `ongoing` whether the updated gesture goes on.
   */
  datatype MoveEnv = MoveEnv(alive: bool, floating: bool, begins: bool, onStartOutput: bool, over: bool, ongoing: bool)

  datatype MoveEvent =
    | Motion(to: Vec, time: nat)
    | RelativeMotion(delta: Vec, time: nat)
    | Frame(env: MoveEnv)
    | Toggle(env: MoveEnv)
    | Release

  function NewMove(at: Vec, enableViewOffset: bool): MoveGrab {
    MoveGrab(at, at, at, None, None, None, enableViewOffset, false, NoCalls)
  }

  function PassMove(g: MoveGrab, delta: Vec, env: MoveEnv): (MoveGrab, bool) {
    if !env.alive then (g, false)
    else if !env.over then (g, true)
    else
      var passed := g.(calls := Then(g.calls, Update(InteractiveMove, delta)));
      if env.ongoing then (passed.(last := g.location), true) else (passed, false)
  }

  function PassView(g: MoveGrab, delta: Vec, env: MoveEnv): (MoveGrab, bool) {
    (g.(calls := Then(g.calls, Update(ViewOffset, Against(ViewOffset, delta)))), env.ongoing)
  }

  function BeginGesture(g: MoveGrab, gesture: Gesture): MoveGrab {
    g.(gesture := Some(gesture), calls := Then(g.calls, Begin(gesture)))
  }

  /** The whole way from the start decides about the gesture, and is passed to it. */
  function Recognize(g: MoveGrab, env: MoveEnv): (MoveGrab, bool) {
    var c := g.location.Minus(g.start);
    if !env.alive then (g, false)
    else if !c.FarEnough(8.0) then (g, true)
    else if g.enableViewOffset && !env.floating && c.Horizontal() then
      if env.onStartOutput then PassView(BeginGesture(g, ViewOffset), c, env) else (g, false)
    else if env.begins then PassMove(BeginGesture(g, InteractiveMove), c, env)
    else (g, false)
  }

  /** Whether the grab stays after a frame, and its new state. */
  function MoveFrame(g: MoveGrab, env: MoveEnv): (MoveGrab, bool) {
    if g.timestamp.None? then (g, true)
    else
      var taken := g.(timestamp := None, relative := None);
      var delta := g.location.Minus(g.last);
      match g.gesture
      case None => Recognize(taken, env)
      case Some(ViewOffset) => PassView(taken, g.relative.GetOr(delta), env)
      case Some(_) => PassMove(taken, delta, env)
  }

  function MoveToggle(g: MoveGrab, env: MoveEnv): (MoveGrab, bool) {
    match g.gesture
    case Some(ViewOffset) => (g, true)
    case Some(_) => (g.(calls := Then(g.calls, ToggleFloating)), true)
    case None =>
      if !env.over || !env.begins then (g, false)
      else
        var begun := BeginGesture(g, InteractiveMove);
        var passed := begun.(calls := Then(begun.calls, Update(InteractiveMove, g.last.Minus(g.start))));
        if env.ongoing then (passed.(calls := Then(passed.calls, ToggleFloating)), true) else (passed, false)
  }

  function MoveUngrab(g: MoveGrab): MoveGrab {
    g.(released := true, calls := Then(g.calls, if g.gesture.Some? then End(g.gesture.value) else ActivateWindow))
  }

  function KeepOrUngrab(r: (MoveGrab, bool)): MoveGrab {
    if r.1 then r.0 else MoveUngrab(r.0)
  }

  function MoveStep(g: MoveGrab, e: MoveEvent): MoveGrab {
    if g.released then g
    else
      match e
      case Motion(to, time) => g.(location := to, timestamp := if g.relative.None? then Some(time) else g.timestamp)
      case RelativeMotion(delta, time) => g.(relative := Some(g.relative.GetOr(ZERO).Plus(delta)), timestamp := Some(time))
      case Frame(env) => KeepOrUngrab(MoveFrame(g, env))
      case Toggle(env) => KeepOrUngrab(MoveToggle(g, env))
      case Release => MoveUngrab(g)
  }

  function MoveRun(g: MoveGrab, es: seq<MoveEvent>): MoveGrab
    decreases |es|
  {
    if es == [] then g else MoveStep(MoveRun(g, es[..|es| - 1]), es[|es| - 1])
  }

  /** The calls made so far match the gesture. */
  predicate Bracketed(calls: Calls, gesture: Option<Gesture>, released: bool) {
    match gesture
    case None => PhaseOf(calls) == Before
    case Some(g) => PhaseOf(calls) == if released then After(g) else During(g)
  }

  /** What also holds of a grab that is about to be released. */
  ghost predicate MoveMid(g: MoveGrab) {
    && Bracketed(g.calls, g.gesture, g.released)
    && (g.gesture.Some? ==> g.gesture.value != WorkspaceSwitch)
    && (g.gesture != Some(InteractiveMove) ==> g.last == g.start)
    && (g.gesture.None? ==> Total(g.calls) == ZERO)
  }

  predicate MovePassed(g: MoveGrab) {
    g.gesture == Some(InteractiveMove) ==> Total(g.calls) == g.last.Minus(g.start)
  }

  ghost predicate MoveInv(g: MoveGrab) {
    MoveMid(g) && (!g.released ==> MovePassed(g))
  }

  lemma PassMoveKeeps(g: MoveGrab, delta: Vec, env: MoveEnv)
    requires MoveInv(g) && !g.released && g.gesture == Some(InteractiveMove) && delta == g.location.Minus(g.last)
    ensures
      var r := PassMove(g, delta, env);
      MoveMid(r.0) && !r.0.released && (r.1 ==> MovePassed(r.0))
  {
  }

  lemma PassViewKeeps(g: MoveGrab, delta: Vec, env: MoveEnv)
    requires MoveInv(g) && !g.released && g.gesture == Some(ViewOffset)
    ensures
      var r := PassView(g, delta, env);
      MoveInv(r.0) && !r.0.released
  {
  }

  lemma BeginKeeps(g: MoveGrab, gesture: Gesture)
    requires MoveInv(g) && !g.released && g.gesture.None? && gesture != WorkspaceSwitch
    ensures MoveInv(BeginGesture(g, gesture))
  {
  }

  lemma RecognizeKeeps(g: MoveGrab, env: MoveEnv)
    requires MoveInv(g) && !g.released && g.gesture.None?
    ensures
      var r := Recognize(g, env);
      MoveMid(r.0) && !r.0.released && (r.1 ==> MovePassed(r.0))
  {
    var c := g.location.Minus(g.start);
    if env.alive && c.FarEnough(8.0) {
      var viewOffset := g.enableViewOffset && !env.floating && c.Horizontal();
      if viewOffset && env.onStartOutput {
        BeginKeeps(g, ViewOffset);
        PassViewKeeps(BeginGesture(g, ViewOffset), c, env);
      } else if !viewOffset && env.begins {
        BeginKeeps(g, InteractiveMove);
        PassMoveKeeps(BeginGesture(g, InteractiveMove), c, env);
      }
    }
  }

  lemma MoveFrameKeeps(g: MoveGrab, env: MoveEnv)
    requires MoveInv(g) && !g.released
    ensures
      var r := MoveFrame(g, env);
      MoveMid(r.0) && !r.0.released && (r.1 ==> MovePassed(r.0))
  {
    if g.timestamp.Some? {
      var taken := g.(timestamp := None, relative := None);
      var delta := g.location.Minus(g.last);
      match g.gesture {
        case None => RecognizeKeeps(taken, env);
        case Some(ViewOffset) => PassViewKeeps(taken, g.relative.GetOr(delta), env);
        case Some(_) => PassMoveKeeps(taken, delta, env);
      }
    }
  }

  lemma MoveToggleKeeps(g: MoveGrab, env: MoveEnv)
    requires MoveInv(g) && !g.released
    ensures
      var r := MoveToggle(g, env);
      MoveMid(r.0) && !r.0.released && (r.1 ==> MovePassed(r.0))
  {
    if g.gesture.None? {
      BeginKeeps(g, InteractiveMove);
    }
  }

  lemma MoveUngrabKeeps(g: MoveGrab)
    requires MoveMid(g) && !g.released
    ensures MoveInv(MoveUngrab(g))
  {
  }

  lemma MoveStepKeeps(g: MoveGrab, e: MoveEvent)
    requires MoveInv(g)
    ensures MoveInv(MoveStep(g, e)) && MoveStep(g, e).start == g.start
  {
    if !g.released {
      match e {
        case Frame(env) =>
          MoveFrameKeeps(g, env);
          if !MoveFrame(g, env).1 {
            MoveUngrabKeeps(MoveFrame(g, env).0);
          }
        case Toggle(env) =>
          MoveToggleKeeps(g, env);
          if !MoveToggle(g, env).1 {
            MoveUngrabKeeps(MoveToggle(g, env).0);
          }
        case Release => MoveUngrabKeeps(g);
        case _ => {}
      }
    }
  }

  lemma {:induction false} MoveRunKeeps(g: MoveGrab, es: seq<MoveEvent>)
    requires MoveInv(g)
    ensures MoveInv(MoveRun(g, es)) && MoveRun(g, es).start == g.start
  {
    if es != [] {
      var before := MoveRun(g, es[..|es| - 1]);
      MoveRunKeeps(g, es[..|es| - 1]);
      MoveStepKeeps(before, es[|es| - 1]);
    }
  }

  /**
   * Conservation: while a window is being moved, the movement passed to the layout is exactly the way from the start
   * to the last location accounted for, travel outside all outputs included.
   */
  lemma {:induction false} MoveIsConserved(at: Vec, enableViewOffset: bool, es: seq<MoveEvent>)
    ensures
      var g := MoveRun(NewMove(at, enableViewOffset), es);
      !g.released && g.gesture == Some(InteractiveMove) ==> Total(g.calls) == g.last.Minus(at)
  {
    MoveRunKeeps(NewMove(at, enableViewOffset), es);
  }

  /** Bracketing: a released grab has ended exactly the gesture it began, if it began one, and no other call is out of place. */
  lemma {:induction false} MoveIsBracketed(at: Vec, enableViewOffset: bool, es: seq<MoveEvent>)
    ensures
      var g := MoveRun(NewMove(at, enableViewOffset), es);
      PhaseOf(g.calls) ==
        if g.gesture.None? then Before else if g.released then After(g.gesture.value) else During(g.gesture.value)
  {
    MoveRunKeeps(NewMove(at, enableViewOffset), es);
  }

  lemma AbsoluteFrameAdds(g: MoveGrab, to: Vec, env: MoveEnv, time: nat)
    requires MoveInv(g) && !g.released && g.gesture == Some(ViewOffset) && g.relative.None?
    ensures
      var moved := MoveFrame(MoveStep(g, Motion(to, time)), env).0;
      Total(moved.calls) == Total(g.calls).Plus(Against(ViewOffset, to.Minus(g.start)))
  {
  }

  /**
   * A view offset is not conserved in the same way: the last location stays at the start, so each frame without
   * relative motion passes the whole way from the start again. If the movement up to now was passed in full, such a
   * frame leaves it so exactly when the grab was still where it started.
   */
  lemma {:induction false} AbsoluteViewOffsetOvercountsIff(at: Vec, es: seq<MoveEvent>, to: Vec, env: MoveEnv, time: nat)
    requires
      var g := MoveRun(NewMove(at, true), es);
      && !g.released && g.gesture == Some(ViewOffset) && g.relative.None?
      && Total(g.calls) == Against(ViewOffset, g.location.Minus(at))
    ensures
      var g := MoveRun(NewMove(at, true), es);
      var moved := MoveFrame(MoveStep(g, Motion(to, time)), env).0;
      Total(moved.calls) == Against(ViewOffset, to.Minus(at)) <==> g.location.x == at.x
  {
    MoveRunKeeps(NewMove(at, true), es);
    AbsoluteFrameAdds(MoveRun(NewMove(at, true), es), to, env, time);
  }

  /** A frame that passes a view offset update, recognizing the gesture first if need be. */
  predicate PassesView(g: MoveGrab, e: MoveEvent) {
    !g.released && e.Frame? && g.timestamp.Some? && MoveStep(g, e).gesture == Some(ViewOffset)
  }

  /** What drives the view in a frame: relative motion if there is any once the gesture goes on, else the way from the start. */
  function Drive(g: MoveGrab): real {
    if g.gesture.Some? && g.relative.Some? then g.relative.value.x else g.location.x - g.start.x
  }

  /** What drove the view, at each frame that passed a view offset update. */
  function Displacements(g: MoveGrab, es: seq<MoveEvent>): seq<real>
    decreases |es|
  {
    if es == [] then []
    else
      var before, e := MoveRun(g, es[..|es| - 1]), es[|es| - 1];
      Displacements(g, es[..|es| - 1]) + if PassesView(before, e) then [Drive(before)] else []
  }

  /** Exactly the displacements have been passed, from the right to the left. */
  predicate PassedDisplacements(g: MoveGrab, ds: seq<real>) {
    && (g.gesture.None? ==> ds == [])
    && (g.gesture == Some(ViewOffset) ==> Total(g.calls) == Vec(-Sum(ds), ZERO.y))
  }

  lemma {:induction false} ViewPassAdds(g: MoveGrab, delta: Vec, env: MoveEnv, ds: seq<real>)
    requires Total(g.calls) == Vec(-Sum(ds), ZERO.y)
    ensures Total(PassView(g, delta, env).0.calls) == Vec(-Sum(ds + [delta.x]), ZERO.y)
  {
    assert (ds + [delta.x])[..|ds|] == ds;
  }

  lemma UngrabAddsNothing(g: MoveGrab)
    ensures Total(MoveUngrab(g).calls) == Total(g.calls)
  {
  }

  lemma RecognizePassesDisplacement(g: MoveGrab, env: MoveEnv)
    requires MoveInv(g) && !g.released && g.gesture.None?
    ensures
      var r := Recognize(g, env).0;
      PassedDisplacements(r, if r.gesture == Some(ViewOffset) then [g.location.x - g.start.x] else [])
  {
    var c := g.location.Minus(g.start);
    ViewPassAdds(BeginGesture(g, ViewOffset), c, env, []);
    assert [] + [c.x] == [c.x];
  }

  lemma {:induction false} FramePassesDisplacement(g: MoveGrab, env: MoveEnv, ds: seq<real>)
    requires MoveInv(g) && !g.released && PassedDisplacements(g, ds)
    ensures PassedDisplacements(MoveFrame(g, env).0,
                                ds + if PassesView(g, Frame(env)) then [Drive(g)] else [])
  {
    assert ds + [] == ds;
    if g.timestamp.Some? {
      var taken := g.(timestamp := None, relative := None);
      if g.gesture.None? {
        RecognizePassesDisplacement(taken, env);
        assert [] + [g.location.x - g.start.x] == [g.location.x - g.start.x];
      } else if g.gesture == Some(ViewOffset) {
        ViewPassAdds(taken, g.relative.GetOr(g.location.Minus(g.last)), env, ds);
      }
    }
  }

  lemma {:induction false} StepPassesDisplacement(g: MoveGrab, e: MoveEvent, ds: seq<real>)
    requires MoveInv(g) && PassedDisplacements(g, ds)
    ensures PassedDisplacements(MoveStep(g, e), ds + if PassesView(g, e) then [Drive(g)] else [])
  {
    assert ds + [] == ds;
    if !g.released {
      match e {
        case Frame(env) =>
          FramePassesDisplacement(g, env, ds);
          UngrabAddsNothing(MoveFrame(g, env).0);
        case Toggle(env) => UngrabAddsNothing(MoveToggle(g, env).0);
        case Release => UngrabAddsNothing(g);
        case _ => {}
      }
    }
  }

  lemma {:induction false} RunPassesDisplacements(g: MoveGrab, es: seq<MoveEvent>)
    requires MoveInv(g) && PassedDisplacements(g, [])
    ensures PassedDisplacements(MoveRun(g, es), Displacements(g, es))
  {
    if es != [] {
      RunPassesDisplacements(g, es[..|es| - 1]);
      MoveRunKeeps(g, es[..|es| - 1]);
      StepPassesDisplacement(MoveRun(g, es[..|es| - 1]), es[|es| - 1], Displacements(g, es[..|es| - 1]));
    }
  }

  lemma {:induction false} LastDisplacement(g: MoveGrab, es: seq<MoveEvent>)
    requires es != [] && PassesView(MoveRun(g, es[..|es| - 1]), es[|es| - 1])
    requires g.relative.None? && forall i | 0 <= i < |es| :: !es[i].RelativeMotion?
    ensures MoveRun(g, es).gesture == Some(ViewOffset)
    ensures Displacements(g, es) == Displacements(g, es[..|es| - 1]) + [MoveRun(g, es).location.x - g.start.x]
  {
    NoRelativeMotion(g, es[..|es| - 1]);
  }

  lemma {:induction false} NoRelativeMotion(g: MoveGrab, es: seq<MoveEvent>)
    requires g.relative.None? && forall i | 0 <= i < |es| :: !es[i].RelativeMotion?
    ensures MoveRun(g, es).relative.None? && MoveRun(g, es).start == g.start
  {
    if es != [] {
      NoRelativeMotion(g, es[..|es| - 1]);
      StepKeepsAbsolute(MoveRun(g, es[..|es| - 1]), es[|es| - 1]);
    }
  }

  lemma StepKeepsAbsolute(g: MoveGrab, e: MoveEvent)
    requires g.relative.None? && !e.RelativeMotion?
    ensures MoveStep(g, e).relative.None? && MoveStep(g, e).start == g.start
  {
  }

  lemma {:induction false} SumOneMore(ds: seq<real>, d: real)
    ensures Sum(ds + [d]) == Sum(ds) + d
  {
    assert (ds + [d])[..|ds|] == ds;
  }

  /** Over every run, a view offset gesture is passed the sum of what drove the view at its frames. */
  lemma {:induction false} ViewOffsetPassesSum(at: Vec, enableViewOffset: bool, es: seq<MoveEvent>)
    requires MoveRun(NewMove(at, enableViewOffset), es).gesture == Some(ViewOffset)
    ensures
      Total(MoveRun(NewMove(at, enableViewOffset), es).calls) ==
      Vec(-Sum(Displacements(NewMove(at, enableViewOffset), es)), ZERO.y)
  {
    RunPassesDisplacements(NewMove(at, enableViewOffset), es);
  }

  lemma WayPassedIff(total: Vec, way: Vec, earlier: real)
    requires total == Vec(-(earlier + way.x), ZERO.y)
    ensures total == Against(ViewOffset, way) <==> earlier == 0.0
  {
  }

  /**
   * So without relative motion the movement passed up to such a frame is the way from the start exactly when the
   * displacements at the earlier frames sum to zero.
   */
  lemma {:induction false} ViewOffsetConservedIff(at: Vec, enableViewOffset: bool, es: seq<MoveEvent>)
    requires forall i | 0 <= i < |es| :: !es[i].RelativeMotion?
    requires es != [] && PassesView(MoveRun(NewMove(at, enableViewOffset), es[..|es| - 1]), es[|es| - 1])
    ensures
      var g := MoveRun(NewMove(at, enableViewOffset), es);
      Total(g.calls) == Against(ViewOffset, g.location.Minus(at)) <==>
      Sum(Displacements(NewMove(at, enableViewOffset), es[..|es| - 1])) == 0.0
  {
    var g0 := NewMove(at, enableViewOffset);
    var g, earlier := MoveRun(g0, es), Displacements(g0, es[..|es| - 1]);
    LastDisplacement(g0, es);
    ViewOffsetPassesSum(at, enableViewOffset, es);
    SumOneMore(earlier, g.location.x - at.x);
    WayPassedIff(Total(g.calls), g.location.Minus(at), Sum(earlier));
  }

  lemma RightIsFar(d: real)
    requires d >= 8.0
    ensures Vec(d, ZERO.y).Minus(ZERO) == Vec(d, ZERO.y) && Vec(d, ZERO.y).FarEnough(8.0) && Vec(d, ZERO.y).Horizontal()
  {
    assert d * d - 8.0 * 8.0 == (d - 8.0) * (d + 8.0);
  }

  /** Two equal steps to the right by touch scroll the view by three. */
  lemma TouchViewOffsetOvercounts(d: real)
    requires d >= 8.0
    ensures exists es: seq<MoveEvent> ::
      (var g := MoveRun(NewMove(ZERO, true), es);
       !g.released && g.location == Vec(d + d, ZERO.y) && Total(g.calls) == Vec(-(d + d + d), ZERO.y))
  {
    var env := MoveEnv(true, false, true, true, true, true);
    var es := [Motion(Vec(d, ZERO.y), 1), Frame(env), Motion(Vec(d + d, ZERO.y), 2), Frame(env)];
    assert es[..3] == [Motion(Vec(d, ZERO.y), 1), Frame(env), Motion(Vec(d + d, ZERO.y), 2)];
    assert es[..3][..2] == es[..2] && es[..2][..1] == es[..1] && es[..1][..0] == [];
    var g0 := NewMove(ZERO, true);
    var g1 := MoveStep(g0, es[0]);
    var g2 := MoveStep(g1, es[1]);
    var g3 := MoveStep(g2, es[2]);
    var g4 := MoveStep(g3, es[3]);
    assert MoveRun(g0, es) == g4 by {
      assert MoveRun(g0, es[..1]) == g1;
      assert MoveRun(g0, es[..2]) == g2;
      assert MoveRun(g0, es[..3]) == g3;
    }
    RightIsFar(d);
    var first, second := Update(ViewOffset, Vec(-d, ZERO.y)), Update(ViewOffset, Vec(-(d + d), ZERO.y));
    assert g2.calls == Then(Then(NoCalls, Begin(ViewOffset)), first) && g4.calls == Then(g2.calls, second);
    assert Total(Then(NoCalls, Begin(ViewOffset))) == ZERO;
    assert Total(g2.calls) == Vec(-d, ZERO.y);
  }

  // Touch in the overview.

  const HOLD_THRESHOLD := 500

  datatype TouchGrab = TouchGrab(
    start: Vec, startTime: nat, last: Vec, location: Vec, timestamp: Option<nat>,
    gesture: Option<Gesture>, hasWindow: bool, hasWorkspace: bool, released: bool, calls: Calls)

  datatype TouchEvent =
    | TouchMotion(to: Vec, time: nat)
    | TouchFrame(env: MoveEnv)
    | SecondFinger
    | TouchRelease

  function NewTouch(at: Vec, time: nat, hasWindow: bool, hasWorkspace: bool): TouchGrab {
    TouchGrab(at, time, at, at, None, None, hasWindow, hasWorkspace, false, NoCalls)
  }

  function BeginTouch(g: TouchGrab, gesture: Gesture): TouchGrab {
    g.(gesture := Some(gesture), calls := Then(g.calls, Begin(gesture)))
  }

  /** A finger held still on a window picks it up. */
  function RecognizeHold(g: TouchGrab, time: nat, env: MoveEnv): TouchGrab {
    if g.gesture.None? && g.hasWindow && env.alive && time >= g.startTime + HOLD_THRESHOLD && env.begins
    then BeginTouch(g, InteractiveMove) else g
  }

  function RecognizeScroll(g: TouchGrab, env: MoveEnv): TouchGrab {
    var c := g.location.Minus(g.start);
    if g.gesture.Some? || !c.FarEnough(16.0) then g
    else if g.hasWorkspace && c.Horizontal() && env.onStartOutput then BeginTouch(g, ViewOffset)
    else BeginTouch(g, WorkspaceSwitch)
  }

  function PassTouch(g: TouchGrab, env: MoveEnv): (TouchGrab, bool)
    requires g.gesture.Some?
  {
    var delta := g.location.Minus(g.last);
    var moved := g.(last := g.location);
    var passed := moved.(calls := Then(g.calls, Update(g.gesture.value, Against(g.gesture.value, delta))));
    if g.gesture.value != InteractiveMove then (passed, env.ongoing)
    else if !g.hasWindow || !env.alive then (moved, false)
    else if !env.over then (moved.(last := g.location.Minus(delta)), true)
    else (passed, env.ongoing)
  }

  function Recognized(g: TouchGrab, time: nat, env: MoveEnv): TouchGrab {
    RecognizeScroll(RecognizeHold(g, time, env), env)
  }

  function PassIfAny(g: TouchGrab, env: MoveEnv): (TouchGrab, bool) {
    if g.gesture.None? then (g, true) else PassTouch(g, env)
  }

  function TouchFrameStep(g: TouchGrab, env: MoveEnv): (TouchGrab, bool) {
    if g.timestamp.None? then (g, true)
    else PassIfAny(Recognized(g.(timestamp := None), g.timestamp.value, env), env)
  }

  /** Another finger put down while a window is held toggles its floating. */
  function TouchToggle(g: TouchGrab): TouchGrab {
    if g.gesture == Some(InteractiveMove) && g.hasWindow then g.(calls := Then(g.calls, ToggleFloating)) else g
  }

  function TouchUngrab(g: TouchGrab): TouchGrab {
    var calls :=
      if g.gesture.None? then if g.hasWindow then Then(g.calls, ActivateWindow) else g.calls
      else if g.gesture.value == InteractiveMove && !g.hasWindow then g.calls
      else Then(g.calls, End(g.gesture.value));
    g.(released := true, calls := calls)
  }

  function KeepOrUngrabTouch(r: (TouchGrab, bool)): TouchGrab {
    if r.1 then r.0 else TouchUngrab(r.0)
  }

  function TouchStep(g: TouchGrab, e: TouchEvent): TouchGrab {
    if g.released then g
    else
      match e
      case TouchMotion(to, time) => g.(location := to, timestamp := Some(time))
      case TouchFrame(env) => KeepOrUngrabTouch(TouchFrameStep(g, env))
      case SecondFinger => TouchToggle(g)
      case TouchRelease => TouchUngrab(g)
  }

  function TouchRun(g: TouchGrab, es: seq<TouchEvent>): TouchGrab
    decreases |es|
  {
    if es == [] then g else TouchStep(TouchRun(g, es[..|es| - 1]), es[|es| - 1])
  }

  ghost predicate TouchMid(g: TouchGrab) {
    Bracketed(g.calls, g.gesture, g.released) &&
    match g.gesture
    case None => g.last == g.start && Total(g.calls) == ZERO
    case Some(gesture) => gesture == InteractiveMove ==> g.hasWindow
  }

  predicate TouchPassed(g: TouchGrab) {
    match g.gesture
    case None => true
    case Some(gesture) => Total(g.calls) == Against(gesture, g.last.Minus(g.start))
  }

  ghost predicate TouchInv(g: TouchGrab) {
    TouchMid(g) && (!g.released ==> TouchPassed(g))
  }

  lemma BeginTouchKeeps(g: TouchGrab, gesture: Gesture)
    requires TouchInv(g) && !g.released && g.gesture.None? && (gesture == InteractiveMove ==> g.hasWindow)
    ensures TouchInv(BeginTouch(g, gesture))
  {
  }

  lemma RecognizeHoldKeeps(g: TouchGrab, time: nat, env: MoveEnv)
    requires TouchInv(g) && !g.released
    ensures
      var r := RecognizeHold(g, time, env);
      TouchInv(r) && !r.released && r.start == g.start
  {
    if g.gesture.None? && g.hasWindow {
      BeginTouchKeeps(g, InteractiveMove);
    }
  }

  lemma RecognizeScrollKeeps(g: TouchGrab, env: MoveEnv)
    requires TouchInv(g) && !g.released
    ensures
      var r := RecognizeScroll(g, env);
      TouchInv(r) && !r.released && r.start == g.start
  {
    if g.gesture.None? {
      BeginTouchKeeps(g, ViewOffset);
      BeginTouchKeeps(g, WorkspaceSwitch);
    }
  }

  lemma PassTouchKeeps(g: TouchGrab, env: MoveEnv)
    requires TouchInv(g) && !g.released
    ensures
      var r := PassIfAny(g, env);
      TouchMid(r.0) && !r.0.released && r.0.start == g.start && (r.1 ==> TouchPassed(r.0))
  {
  }

  lemma TouchUngrabKeeps(g: TouchGrab)
    requires TouchMid(g) && !g.released
    ensures TouchInv(TouchUngrab(g))
  {
  }

  lemma TouchToggleKeeps(g: TouchGrab)
    requires TouchInv(g) && !g.released
    ensures TouchInv(TouchToggle(g))
  {
  }

  lemma TouchFrameKeeps(g: TouchGrab, env: MoveEnv)
    requires TouchInv(g) && !g.released
    ensures
      var r := TouchFrameStep(g, env);
      TouchMid(r.0) && !r.0.released && r.0.start == g.start && (r.1 ==> TouchPassed(r.0))
  {
    if g.timestamp.Some? {
      var taken := g.(timestamp := None);
      RecognizeHoldKeeps(taken, g.timestamp.value, env);
      RecognizeScrollKeeps(RecognizeHold(taken, g.timestamp.value, env), env);
      PassTouchKeeps(Recognized(taken, g.timestamp.value, env), env);
    }
  }

  lemma KeepOrUngrabTouchKeeps(r: (TouchGrab, bool))
    requires TouchMid(r.0) && !r.0.released && (r.1 ==> TouchPassed(r.0))
    ensures TouchInv(KeepOrUngrabTouch(r)) && KeepOrUngrabTouch(r).start == r.0.start
  {
    if !r.1 {
      TouchUngrabKeeps(r.0);
    }
  }

  lemma TouchStepKeeps(g: TouchGrab, e: TouchEvent)
    requires TouchInv(g)
    ensures TouchInv(TouchStep(g, e)) && TouchStep(g, e).start == g.start
  {
    if !g.released {
      match e {
        case TouchFrame(env) =>
          TouchFrameKeeps(g, env);
          KeepOrUngrabTouchKeeps(TouchFrameStep(g, env));
        case SecondFinger => TouchToggleKeeps(g);
        case TouchRelease => TouchUngrabKeeps(g);
        case _ => {}
      }
    }
  }

  lemma {:induction false} TouchRunKeeps(g: TouchGrab, es: seq<TouchEvent>)
    requires TouchInv(g)
    ensures TouchInv(TouchRun(g, es)) && TouchRun(g, es).start == g.start
  {
    if es != [] {
      var before := TouchRun(g, es[..|es| - 1]);
      TouchRunKeeps(g, es[..|es| - 1]);
      TouchStepKeeps(before, es[|es| - 1]);
    }
  }

  /**
   * In any recognized gesture the movement passed to the layout is the way from the start to the last location, on
   * the gesture's axis, and a released grab has ended exactly the gesture it began.
   */
  lemma {:induction false} TouchIsConservedAndBracketed(at: Vec, time: nat, hasWindow: bool, hasWorkspace: bool, es: seq<TouchEvent>)
    ensures
      var g := TouchRun(NewTouch(at, time, hasWindow, hasWorkspace), es);
      && (!g.released && g.gesture.Some? ==> Total(g.calls) == Against(g.gesture.value, g.last.Minus(at)))
      && (PhaseOf(g.calls) ==
          if g.gesture.None? then Before else if g.released then After(g.gesture.value) else During(g.gesture.value))
  {
    TouchRunKeeps(NewTouch(at, time, hasWindow, hasWorkspace), es);
  }

  // Spatial movement with the pointer.

  datatype SpatialGrab = SpatialGrab(
    start: Vec, last: Vec, location: Vec, timestamp: Option<nat>, relative: Option<Vec>,
    gesture: Option<Gesture>, released: bool, calls: Calls)

  datatype SpatialEvent =
    | PointerMotion(to: Vec, time: nat)
    | PointerRelativeMotion(delta: Vec, time: nat)
    | PointerFrame(onStartOutput: bool, ongoing: bool)
    | PointerRelease

  /** The grab may take over a view offset that its creator has begun. */
  function NewSpatial(at: Vec, isViewOffset: bool): SpatialGrab {
    SpatialGrab(at, at, at, None, None, if isViewOffset then Some(ViewOffset) else None, false,
                if isViewOffset then Then(NoCalls, Begin(ViewOffset)) else NoCalls)
  }

  function PassSpatial(g: SpatialGrab, gesture: Gesture, delta: Vec): SpatialGrab {
    g.(calls := Then(g.calls, Update(gesture, Against(gesture, delta))))
  }

  function BeginSpatial(g: SpatialGrab, gesture: Gesture, c: Vec): SpatialGrab {
    PassSpatial(g.(gesture := Some(gesture), calls := Then(g.calls, Begin(gesture))), gesture, c)
  }

  function SpatialFrameStep(g: SpatialGrab, onStartOutput: bool, ongoing: bool): (SpatialGrab, bool) {
    if g.timestamp.None? then (g, true)
    else
      var delta := g.relative.GetOr(g.location.Minus(g.last));
      var taken := g.(timestamp := None, relative := None, last := g.location);
      if g.gesture.Some? then (PassSpatial(taken, g.gesture.value, delta), ongoing)
      else
        var c := g.location.Minus(g.start);
        if !c.FarEnough(8.0) then (taken, true)
        else if !c.Horizontal() then (BeginSpatial(taken, WorkspaceSwitch, c), ongoing)
        else if onStartOutput then (BeginSpatial(taken, ViewOffset, c), ongoing)
        else (taken, false)
  }

  function SpatialUngrab(g: SpatialGrab): SpatialGrab {
    g.(released := true, calls := if g.gesture.Some? then Then(g.calls, End(g.gesture.value)) else g.calls)
  }

  function SpatialStep(g: SpatialGrab, e: SpatialEvent): SpatialGrab {
    if g.released then g
    else
      match e
      case PointerMotion(to, time) => g.(location := to, timestamp := if g.relative.None? then Some(time) else g.timestamp)
      case PointerRelativeMotion(delta, time) =>
        g.(relative := Some(g.relative.GetOr(ZERO).Plus(delta)), timestamp := Some(time))
      case PointerFrame(onStartOutput, ongoing) =>
        var r := SpatialFrameStep(g, onStartOutput, ongoing);
        if r.1 then r.0 else SpatialUngrab(r.0)
      case PointerRelease => SpatialUngrab(g)
  }

  function SpatialRun(g: SpatialGrab, es: seq<SpatialEvent>): SpatialGrab
    decreases |es|
  {
    if es == [] then g else SpatialStep(SpatialRun(g, es[..|es| - 1]), es[|es| - 1])
  }

  /** Without relative motion, what was passed is the way to the last location. */
  predicate SpatialPassed(g: SpatialGrab) {
    g.relative.None? &&
    match g.gesture
    case None => Total(g.calls) == ZERO
    case Some(gesture) => Total(g.calls) == Against(gesture, g.last.Minus(g.start))
  }

  ghost predicate SpatialInv(g: SpatialGrab, absolute: bool) {
    && Bracketed(g.calls, g.gesture, g.released)
    && g.gesture != Some(InteractiveMove)
    && (absolute ==> SpatialPassed(g))
  }

  lemma PassSpatialKeeps(g: SpatialGrab, delta: Vec)
    requires !g.released && g.gesture.Some? && Bracketed(g.calls, g.gesture, false)
    ensures
      var r := PassSpatial(g, g.gesture.value, delta);
      Bracketed(r.calls, r.gesture, false) && Total(r.calls) == Total(g.calls).Plus(Against(g.gesture.value, delta))
  {
  }

  lemma BeginSpatialKeeps(g: SpatialGrab, gesture: Gesture, c: Vec)
    requires !g.released && g.gesture.None? && Bracketed(g.calls, None, false)
    ensures
      var r := BeginSpatial(g, gesture, c);
      Bracketed(r.calls, r.gesture, false) && Total(r.calls) == Total(g.calls).Plus(Against(gesture, c))
  {
    PassSpatialKeeps(g.(gesture := Some(gesture), calls := Then(g.calls, Begin(gesture))), c);
  }

  lemma SpatialOngoingKeeps(g: SpatialGrab, absolute: bool)
    requires SpatialInv(g, absolute) && !g.released && g.gesture.Some?
    ensures
      var taken := g.(timestamp := None, relative := None, last := g.location);
      SpatialInv(PassSpatial(taken, g.gesture.value, g.relative.GetOr(g.location.Minus(g.last))), absolute)
  {
    var taken := g.(timestamp := None, relative := None, last := g.location);
    PassSpatialKeeps(taken, g.relative.GetOr(g.location.Minus(g.last)));
  }

  lemma SpatialBeginsKeeps(g: SpatialGrab, gesture: Gesture, absolute: bool)
    requires SpatialInv(g, absolute) && !g.released && g.gesture.None? && gesture != InteractiveMove
    ensures
      var taken := g.(timestamp := None, relative := None, last := g.location);
      SpatialInv(BeginSpatial(taken, gesture, g.location.Minus(g.start)), absolute)
  {
    BeginSpatialKeeps(g.(timestamp := None, relative := None, last := g.location), gesture, g.location.Minus(g.start));
  }

  lemma SpatialFrameKeeps(g: SpatialGrab, onStartOutput: bool, ongoing: bool, absolute: bool)
    requires SpatialInv(g, absolute) && !g.released
    ensures SpatialInv(SpatialFrameStep(g, onStartOutput, ongoing).0, absolute)
  {
    if g.timestamp.Some? {
      if g.gesture.Some? {
        SpatialOngoingKeeps(g, absolute);
      } else {
        SpatialBeginsKeeps(g, WorkspaceSwitch, absolute);
        SpatialBeginsKeeps(g, ViewOffset, absolute);
      }
    }
  }

  lemma SpatialUngrabKeeps(g: SpatialGrab, absolute: bool)
    requires SpatialInv(g, absolute) && !g.released
    ensures SpatialInv(SpatialUngrab(g), absolute)
  {
  }

  lemma SpatialStepKeeps(g: SpatialGrab, e: SpatialEvent, absolute: bool)
    requires SpatialInv(g, absolute) && (absolute ==> !e.PointerRelativeMotion?)
    ensures SpatialInv(SpatialStep(g, e), absolute) && SpatialStep(g, e).start == g.start
  {
    if !g.released {
      match e {
        case PointerFrame(onStartOutput, ongoing) =>
          SpatialFrameKeeps(g, onStartOutput, ongoing, absolute);
          if !SpatialFrameStep(g, onStartOutput, ongoing).1 {
            SpatialUngrabKeeps(SpatialFrameStep(g, onStartOutput, ongoing).0, absolute);
          }
        case PointerRelease => SpatialUngrabKeeps(g, absolute);
        case _ => {}
      }
    }
  }

  lemma {:induction false} SpatialRunKeeps(g: SpatialGrab, es: seq<SpatialEvent>, absolute: bool)
    requires SpatialInv(g, absolute)
    requires absolute ==> forall e | e in es :: !e.PointerRelativeMotion?
    ensures SpatialInv(SpatialRun(g, es), absolute) && SpatialRun(g, es).start == g.start
  {
    if es != [] {
      var before := SpatialRun(g, es[..|es| - 1]);
      SpatialRunKeeps(g, es[..|es| - 1], absolute);
      SpatialStepKeeps(before, es[|es| - 1], absolute);
    }
  }

  /**
   * A released grab has ended exactly the gesture it began or took over, and without relative motion the movement
   * passed is the way from the start to the last location on the gesture's axis.
   */
  lemma {:induction false} SpatialIsConservedAndBracketed(at: Vec, isViewOffset: bool, es: seq<SpatialEvent>)
    ensures
      var g := SpatialRun(NewSpatial(at, isViewOffset), es);
      && (PhaseOf(g.calls) ==
          if g.gesture.None? then Before else if g.released then After(g.gesture.value) else During(g.gesture.value))
      && ((forall e | e in es :: !e.PointerRelativeMotion?) && g.gesture.Some? ==>
          Total(g.calls) == Against(g.gesture.value, g.last.Minus(at)))
  {
    var absolute := forall e | e in es :: !e.PointerRelativeMotion?;
    SpatialRunKeeps(NewSpatial(at, isViewOffset), es, absolute);
  }

  // What motion leads to.

  /** Motion is remembered with its time, relative motion summed up until a frame takes it. */
  lemma MotionIsRemembered(g: MoveGrab, s: SpatialGrab, t: TouchGrab, v: Vec, time: nat)
    requires !g.released && !s.released && !t.released
    ensures MoveStep(g, Motion(v, time)) ==
      g.(location := v, timestamp := if g.relative.None? then Some(time) else g.timestamp)
    ensures SpatialStep(s, PointerMotion(v, time)) ==
      s.(location := v, timestamp := if s.relative.None? then Some(time) else s.timestamp)
    ensures TouchStep(t, TouchMotion(v, time)) == t.(location := v, timestamp := Some(time))
    ensures var r := MoveStep(g, RelativeMotion(v, time));
      r == g.(relative := r.relative, timestamp := Some(time)) && r.relative.Some? &&
      r.relative.value == if g.relative.Some? then Vec(g.relative.value.x + v.x, g.relative.value.y + v.y) else v
    ensures var r := SpatialStep(s, PointerRelativeMotion(v, time));
      r == s.(relative := r.relative, timestamp := Some(time)) && r.relative.Some? &&
      r.relative.value == if s.relative.Some? then Vec(s.relative.value.x + v.x, s.relative.value.y + v.y) else v
  {
  }

  /**
   * A frame passes motion on to the gesture under way: a scroll is driven by relative motion where there is some, a
   * moved window by the pointer; a frame without motion passes nothing.
   */
  lemma FramePassesMotion(g: MoveGrab, s: SpatialGrab, env: MoveEnv, ongoing: bool)
    requires !g.released && !s.released
    ensures g.gesture == Some(ViewOffset) && g.timestamp.Some? ==>
      MoveStep(g, Frame(env)).calls ==
        EndedUnless(env.ongoing, Then(g.calls, Update(ViewOffset, Vec(-(if g.relative.Some? then g.relative.value.x
                                                                        else g.location.x - g.last.x), ZERO.y))), ViewOffset)
    ensures g.gesture == Some(InteractiveMove) && g.timestamp.Some? && env.alive && env.over ==>
      MoveStep(g, Frame(env)).calls ==
        EndedUnless(env.ongoing, Then(g.calls, Update(InteractiveMove, g.location.Minus(g.last))), InteractiveMove)
    ensures s.gesture.Some? && s.gesture.value != InteractiveMove && s.timestamp.Some? ==>
      var delta := if s.relative.Some? then s.relative.value else s.location.Minus(s.last);
      SpatialStep(s, PointerFrame(env.onStartOutput, ongoing)).calls ==
        EndedUnless(ongoing, Then(s.calls, Update(s.gesture.value, if s.gesture.value == ViewOffset then Vec(-delta.x, ZERO.y)
                                                                   else Vec(ZERO.x, -delta.y))), s.gesture.value)
    ensures g.timestamp.None? ==> MoveStep(g, Frame(env)) == g
    ensures s.timestamp.None? ==> SpatialStep(s, PointerFrame(env.onStartOutput, ongoing)) == s
  {
  }

  // Which gesture is recognized.

  /** The calls with those of a gesture begun, and passed `delta`. */
  function Begun(calls: Calls, gesture: Gesture, delta: Vec): Calls {
    Then(Then(calls, Begin(gesture)), Update(gesture, delta))
  }

  /** The calls with the gesture ended if the grab lets go of it. */
  function EndedUnless(keep: bool, calls: Calls, gesture: Gesture): Calls {
    if keep then calls else Then(calls, End(gesture))
  }

  /**
   * The first frame at eight or more from the start decides: a mostly horizontal way scrolls the view, if the
   * workspace is still on this output, and any other way switches workspaces, each by the way against the motion.
   */
  lemma SpatialRecognizes(g: SpatialGrab, onStartOutput: bool, ongoing: bool)
    requires !g.released && g.gesture.None? && g.timestamp.Some?
    ensures
      var x, y := g.location.x - g.start.x, g.location.y - g.start.y;
      var after := SpatialStep(g, PointerFrame(onStartOutput, ongoing));
      if x * x + y * y < 8.0 * 8.0 then after.gesture.None? && !after.released && after.calls == g.calls
      else if Abs(x) > Abs(y) && !onStartOutput then after.gesture.None? && after.released && after.calls == g.calls
      else
        var gesture, delta := if Abs(x) > Abs(y) then ViewOffset else WorkspaceSwitch,
                              if Abs(x) > Abs(y) then Vec(-x, ZERO.y) else Vec(ZERO.x, -y);
        && after.gesture == Some(gesture) && after.released == !ongoing
        && after.calls == EndedUnless(ongoing, Begun(g.calls, gesture, delta), gesture)
  {
  }

  /**
   * Dragging a window from the overview: a mostly horizontal way scrolls the view if that is asked for and the window
   * is tiled, and any other moves the window. The grab lets go, and activates the window, if neither can begin.
   */
  lemma MoveRecognizes(g: MoveGrab, env: MoveEnv)
    requires !g.released && g.gesture.None? && g.timestamp.Some?
    ensures
      var c := g.location.Minus(g.start);
      var after := MoveStep(g, Frame(env));
      var scrolls := g.enableViewOffset && !env.floating && Abs(c.x) > Abs(c.y);
      if env.alive && c.x * c.x + c.y * c.y < 8.0 * 8.0 then
        after.gesture.None? && !after.released && after.calls == g.calls
      else if !env.alive || (if scrolls then !env.onStartOutput else !env.begins) then
        after.gesture.None? && after.released && after.calls == Then(g.calls, ActivateWindow)
      else if scrolls then
        && after.gesture == Some(ViewOffset) && after.released == !env.ongoing
        && after.calls == EndedUnless(env.ongoing, Begun(g.calls, ViewOffset, Vec(-c.x, ZERO.y)), ViewOffset)
      else if env.over then
        && after.gesture == Some(InteractiveMove) && after.released == !env.ongoing
        && after.calls == EndedUnless(env.ongoing, Begun(g.calls, InteractiveMove, c), InteractiveMove)
      else
        after.gesture == Some(InteractiveMove) && !after.released && after.calls == Then(g.calls, Begin(InteractiveMove))
  {
  }

  /** Touch in the overview: a finger held for half a second picks its window up, and one moved by sixteen scrolls. */
  lemma TouchRecognizes(g: TouchGrab, env: MoveEnv)
    requires !g.released && g.gesture.None? && g.timestamp.Some?
    ensures
      var x, y := g.location.x - g.start.x, g.location.y - g.start.y;
      TouchStep(g, TouchFrame(env)).gesture ==
        if g.hasWindow && env.alive && g.timestamp.value >= g.startTime + 500 && env.begins then Some(InteractiveMove)
        else if x * x + y * y < 16.0 * 16.0 then None
        else if g.hasWorkspace && Abs(x) > Abs(y) && env.onStartOutput then Some(ViewOffset)
        else Some(WorkspaceSwitch)
  {
  }

  /** A window is set floating or tiled, while it is moved, by the toggle of a pointer drag and by a second finger. */
  lemma TogglesWhileMoving(g: MoveGrab, t: TouchGrab, env: MoveEnv)
    requires !g.released && !t.released
    ensures g.gesture == Some(InteractiveMove) ==> MoveStep(g, Toggle(env)) == g.(calls := Then(g.calls, ToggleFloating))
    ensures g.gesture == Some(ViewOffset) ==> MoveStep(g, Toggle(env)) == g
    ensures g.gesture.None? && env.over && env.begins && env.ongoing ==>
      MoveStep(g, Toggle(env)).calls == Then(Begun(g.calls, InteractiveMove, g.last.Minus(g.start)), ToggleFloating)
    ensures TouchStep(t, SecondFinger).calls ==
      if t.gesture == Some(InteractiveMove) && t.hasWindow then Then(t.calls, ToggleFloating) else t.calls
  {
  }

  /** Letting go ends the gesture there is, and without one activates the window there is. */
  lemma LettingGo(g: MoveGrab, t: TouchGrab, s: SpatialGrab)
    requires !g.released && !t.released && !s.released
    requires t.gesture == Some(InteractiveMove) ==> t.hasWindow
    ensures MoveStep(g, Release).released && TouchStep(t, TouchRelease).released && SpatialStep(s, PointerRelease).released
    ensures MoveStep(g, Release).calls == Then(g.calls, if g.gesture.Some? then End(g.gesture.value) else ActivateWindow)
    ensures TouchStep(t, TouchRelease).calls ==
      if t.gesture.Some? then Then(t.calls, End(t.gesture.value))
      else if t.hasWindow then Then(t.calls, ActivateWindow) else t.calls
    ensures SpatialStep(s, PointerRelease).calls ==
      if s.gesture.Some? then Then(s.calls, End(s.gesture.value)) else s.calls
  {
  }
}
