/** The grabs as they accumulate motion and act on frames, changing their fields step by step. */
module Grabs {
  import opened Prelude
  import opened M = GrabModel

  class PointerMoveGrab {
    const start: Vec
    const enableViewOffset: bool
    var lastLocation: Vec
    var gesture: Option<Gesture>
    var newLocation: Vec
    var eventTimestamp: Option<nat>
    var relativeDelta: Option<Vec>
    // Calls made to the layout, and whether the grab was let go.
    var calls: Calls
    var released: bool

    function View(): MoveGrab
      reads this
    {
      MoveGrab(start, lastLocation, newLocation, eventTimestamp, relativeDelta, gesture, enableViewOffset, released, calls)
    }

    constructor (at: Vec, enableViewOffset: bool)
      ensures View() == NewMove(at, enableViewOffset) && MoveInv(View())
    {
      start, this.enableViewOffset := at, enableViewOffset;
      lastLocation, newLocation, gesture, eventTimestamp, relativeDelta := at, at, None, None, None;
      calls, released := NoCalls, false;
    }

    method Motion(location: Vec, time: nat)
      requires !released
      modifies this
      ensures View() == MoveStep(old(View()), M.Motion(location, time))
    {
      newLocation := location;
      if relativeDelta.None? {
        eventTimestamp := Some(time);
      }
    }

    method RelativeMotion(delta: Vec, time: nat)
      requires !released
      modifies this
      ensures View() == MoveStep(old(View()), M.RelativeMotion(delta, time))
    {
      relativeDelta := Some(relativeDelta.GetOr(ZERO).Plus(delta));
      eventTimestamp := Some(time);
    }

    method BeginMove(env: MoveEnv) returns (begun: bool)
      modifies this`gesture, this`calls
      ensures begun == env.begins
      ensures View() == if begun then BeginGesture(old(View()), InteractiveMove) else old(View())
    {
      if !env.begins {
        return false;
      }
      calls := Then(calls, Begin(InteractiveMove));
      gesture := Some(InteractiveMove);
      return true;
    }

    method BeginViewOffset(env: MoveEnv) returns (begun: bool)
      modifies this`gesture, this`calls
      ensures begun == env.onStartOutput
      ensures View() == if begun then BeginGesture(old(View()), ViewOffset) else old(View())
    {
      if !env.onStartOutput {
        return false;
      }
      calls := Then(calls, Begin(ViewOffset));
      gesture := Some(ViewOffset);
      return true;
    }

    method OnFrame(env: MoveEnv) returns (keep: bool)
      requires MoveInv(View()) && !released
      modifies this
      ensures (View(), keep) == MoveFrame(old(View()), env)
    {
      if eventTimestamp.None? {
        return true;
      }
      eventTimestamp := None;
      var delta := newLocation.Minus(lastLocation);
      var relative := relativeDelta.GetOr(delta);
      relativeDelta := None;
      if gesture.None? {
        if !env.alive {
          return false;
        }
        var c := newLocation.Minus(start);
        if c.FarEnough(8.0) {
          var isViewOffset := enableViewOffset && !env.floating && c.Horizontal();
          var started: bool;
          if isViewOffset {
            started := BeginViewOffset(env);
          } else {
            started := BeginMove(env);
          }
          if !started {
            return false;
          }
          delta := c;
          relative := c;
        }
      }
      match gesture {
        case None =>
          return true;
        case Some(ViewOffset) =>
          calls := Then(calls, Update(ViewOffset, Against(ViewOffset, relative)));
          return env.ongoing;
        case Some(_) =>
          if !env.alive {
            return false;
          }
          if !env.over {
            return true;
          }
          calls := Then(calls, Update(InteractiveMove, delta));
          if env.ongoing {
            lastLocation := newLocation;
          }
          return env.ongoing;
      }
    }

    method OnToggleFloating(env: MoveEnv) returns (keep: bool)
      requires MoveInv(View()) && !released
      modifies this
      ensures (View(), keep) == MoveToggle(old(View()), env)
    {
      if gesture == Some(ViewOffset) {
        return true;
      }
      if gesture.None? {
        if !env.over {
          return false;
        }
        var begun := BeginMove(env);
        if !begun {
          return false;
        }
        calls := Then(calls, Update(InteractiveMove, lastLocation.Minus(start)));
        if !env.ongoing {
          return false;
        }
      }
      calls := Then(calls, ToggleFloating);
      return true;
    }

    method OnUngrab()
      requires MoveMid(View()) && !released
      modifies this
      ensures View() == MoveUngrab(old(View())) && MoveInv(View())
    {
      MoveUngrabKeeps(View());
      match gesture {
        case None => calls := Then(calls, ActivateWindow);
        case Some(g) => calls := Then(calls, End(g));
      }
      released := true;
    }

    /** The frame handler: acts on the frame, and lets go when the gesture is over. */
    method Frame(env: MoveEnv)
      requires MoveInv(View()) && !released
      modifies this
      ensures View() == MoveStep(old(View()), M.Frame(env)) && MoveInv(View())
    {
      MoveFrameKeeps(View(), env);
      var keep := OnFrame(env);
      if !keep {
        OnUngrab();
      }
    }
  }

  class TouchOverviewGrab {
    const start: Vec
    const startTimestamp: nat
    const hasWindow: bool
    const hasWorkspace: bool
    var lastLocation: Vec
    var gesture: Option<Gesture>
    var newLocation: Vec
    var eventTimestamp: Option<nat>
    var calls: Calls
    var released: bool

    function View(): TouchGrab
      reads this
    {
      TouchGrab(start, startTimestamp, lastLocation, newLocation, eventTimestamp, gesture, hasWindow, hasWorkspace, released, calls)
    }

    constructor (at: Vec, time: nat, hasWindow: bool, hasWorkspace: bool)
      ensures View() == NewTouch(at, time, hasWindow, hasWorkspace) && TouchInv(View())
    {
      start, startTimestamp, this.hasWindow, this.hasWorkspace := at, time, hasWindow, hasWorkspace;
      lastLocation, newLocation, gesture, eventTimestamp := at, at, None, None;
      calls, released := NoCalls, false;
    }

    method Motion(location: Vec, time: nat)
      requires !released
      modifies this
      ensures View() == TouchStep(old(View()), TouchMotion(location, time))
    {
      newLocation := location;
      eventTimestamp := Some(time);
    }

    /** A finger held long enough on a window picks it up. */
    method RecognizeMove(timestamp: nat, env: MoveEnv)
      modifies this`gesture, this`calls
      ensures View() == RecognizeHold(old(View()), timestamp, env)
    {
      if gesture.None? && hasWindow && env.alive {
        var passed := if timestamp < startTimestamp then 0 else timestamp - startTimestamp;
        if HOLD_THRESHOLD <= passed && env.begins {
          calls := Then(calls, Begin(InteractiveMove));
          gesture := Some(InteractiveMove);
        }
      }
    }

    /** A finger moved far enough scrolls, along its main direction where it can. */
    method RecognizeSpatial(env: MoveEnv)
      modifies this`gesture, this`calls
      ensures View() == RecognizeScroll(old(View()), env)
    {
      if gesture.None? {
        var c := newLocation.Minus(start);
        if c.FarEnough(16.0) {
          if hasWorkspace && c.Horizontal() && env.onStartOutput {
            calls := Then(calls, Begin(ViewOffset));
            gesture := Some(ViewOffset);
          }
          if gesture.None? {
            calls := Then(calls, Begin(WorkspaceSwitch));
            gesture := Some(WorkspaceSwitch);
          }
        }
      }
    }

    method OnFrame(env: MoveEnv) returns (keep: bool)
      requires TouchInv(View()) && !released
      modifies this
      ensures (View(), keep) == TouchFrameStep(old(View()), env)
    {
      if eventTimestamp.None? {
        return true;
      }
      var timestamp := eventTimestamp.value;
      eventTimestamp := None;
      RecognizeMove(timestamp, env);
      RecognizeSpatial(env);
      if gesture.None? {
        return true;
      }
      var delta := newLocation.Minus(lastLocation);
      lastLocation := newLocation;
      match gesture.value {
        case InteractiveMove =>
          if !hasWindow {
            return false;
          }
          if !env.alive {
            return false;
          }
          if !env.over {
            lastLocation := newLocation.Minus(delta);
            return true;
          }
          calls := Then(calls, Update(InteractiveMove, delta));
        case ViewOffset =>
          calls := Then(calls, Update(ViewOffset, Vec(-delta.x, ZERO.y)));
        case WorkspaceSwitch =>
          calls := Then(calls, Update(WorkspaceSwitch, Vec(ZERO.x, -delta.y)));
      }
      return env.ongoing;
    }

    /** Another finger is put down. */
    method SecondFinger()
      requires TouchInv(View()) && !released
      modifies this
      ensures View() == TouchStep(old(View()), M.SecondFinger) && TouchInv(View())
    {
      TouchToggleKeeps(View());
      if gesture == Some(InteractiveMove) {
        if hasWindow {
          calls := Then(calls, ToggleFloating);
        }
      }
    }

    method OnUngrab()
      requires TouchMid(View()) && !released
      modifies this
      ensures View() == TouchUngrab(old(View())) && TouchInv(View())
    {
      TouchUngrabKeeps(View());
      match gesture {
        case None =>
          if hasWindow {
            calls := Then(calls, ActivateWindow);
          }
        case Some(g) => calls := Then(calls, End(g));
      }
      released := true;
    }

    method Frame(env: MoveEnv)
      requires TouchInv(View()) && !released
      modifies this
      ensures View() == TouchStep(old(View()), TouchFrame(env)) && TouchInv(View())
    {
      TouchFrameKeeps(View(), env);
      var keep := OnFrame(env);
      if !keep {
        OnUngrab();
      }
    }
  }

  class SpatialMovementGrab {
    const start: Vec
    var lastLocation: Vec
    var gesture: Option<Gesture>
    var newLocation: Vec
    var eventTimestamp: Option<nat>
    var relativeDelta: Option<Vec>
    var calls: Calls
    var released: bool

    function View(): SpatialGrab
      reads this
    {
      SpatialGrab(start, lastLocation, newLocation, eventTimestamp, relativeDelta, gesture, released, calls)
    }

    constructor (at: Vec, isViewOffset: bool)
      ensures View() == NewSpatial(at, isViewOffset)
    {
      start := at;
      lastLocation, newLocation, eventTimestamp, relativeDelta := at, at, None, None;
      gesture := if isViewOffset then Some(ViewOffset) else None;
      calls, released := if isViewOffset then Then(NoCalls, Begin(ViewOffset)) else NoCalls, false;
    }

    method Motion(location: Vec, time: nat)
      requires !released
      modifies this
      ensures View() == SpatialStep(old(View()), PointerMotion(location, time))
    {
      newLocation := location;
      if relativeDelta.None? {
        eventTimestamp := Some(time);
      }
    }

    method RelativeMotion(delta: Vec, time: nat)
      requires !released
      modifies this
      ensures View() == SpatialStep(old(View()), PointerRelativeMotion(delta, time))
    {
      relativeDelta := Some(relativeDelta.GetOr(ZERO).Plus(delta));
      eventTimestamp := Some(time);
    }

    method OnFrame(onStartOutput: bool, ongoing: bool) returns (keep: bool)
      requires !released
      modifies this
      ensures (View(), keep) == SpatialFrameStep(old(View()), onStartOutput, ongoing)
    {
      if eventTimestamp.None? {
        return true;
      }
      eventTimestamp := None;
      var delta := relativeDelta.GetOr(newLocation.Minus(lastLocation));
      relativeDelta := None;
      lastLocation := newLocation;
      match gesture {
        case None =>
          var c := newLocation.Minus(start);
          if c.FarEnough(8.0) {
            if c.Horizontal() {
              if !onStartOutput {
                return false;
              }
              calls := Then(calls, Begin(ViewOffset));
              gesture := Some(ViewOffset);
              calls := Then(calls, Update(ViewOffset, Vec(-c.x, ZERO.y)));
            } else {
              calls := Then(calls, Begin(WorkspaceSwitch));
              gesture := Some(WorkspaceSwitch);
              calls := Then(calls, Update(WorkspaceSwitch, Vec(ZERO.x, -c.y)));
            }
          } else {
            return true;
          }
        case Some(g) =>
          calls := Then(calls, Update(g, Against(g, delta)));
      }
      return ongoing;
    }

    method OnUngrab()
      requires !released
      modifies this
      ensures View() == SpatialUngrab(old(View()))
    {
      if gesture.Some? {
        calls := Then(calls, End(gesture.value));
      }
      released := true;
    }

    method Frame(onStartOutput: bool, ongoing: bool)
      requires SpatialInv(View(), false) && !released
      modifies this
      ensures View() == SpatialStep(old(View()), PointerFrame(onStartOutput, ongoing)) && SpatialInv(View(), false)
    {
      SpatialStepKeeps(View(), PointerFrame(onStartOutput, ongoing), false);
      var keep := OnFrame(onStartOutput, ongoing);
      if !keep {
        OnUngrab();
      }
    }
  }
}
