/**
 * The compositor object whose methods update the redraw and lock state in place. Each method is proved to
 * change `View()` exactly as the protocol function of the same name does.
 */
module YmirState {
  import opened Prelude
  import opened RedrawModel
  import opened RedrawLock
  import opened RedrawTimers

  lemma {:induction false} RunThenStep(w: World, events: seq<Event>, e: Event)
    requires Runs(w, events) && Possible(Run(w, events), e) && !Panics(Run(w, events), e)
    ensures Runs(w, events + [e]) && Run(w, events + [e]) == Step(Run(w, events), e)
    decreases |events|
  {
    if events != [] {
      RunThenStep(Step(w, events[0]), events[1..], e);
      assert (events + [e])[1..] == events[1..] + [e];
    }
  }

  class Ymir {
    var outputs: map<OutputId, OutputState>
    var lockState: LockState
    var monitorsActive: bool
    var timers: map<Token, Timer>
    var nextToken: Token
    var nextOutput: OutputId
    var lastSentAt: map<SurfaceId, (OutputId, nat)>
    ghost var log: seq<Entry>

    ghost function View(): World
      reads this
    {
      World(outputs, lockState, monitorsActive, timers, nextToken, nextOutput, lastSentAt, log)
    }

    constructor ()
      ensures View() == Initial()
    {
      outputs := map[];
      lockState := LockState.Unlocked;
      monitorsActive := true;
      timers := map[];
      nextToken := 0;
      nextOutput := 0;
      lastSentAt := map[];
      log := [];
    }

    method QueueRedraw(o: OutputId)
      requires o in outputs
      modifies this`outputs
      ensures View() == RedrawModel.QueueRedraw(old(View()), o)
    {
      var state := outputs[o];
      outputs := outputs[o := state.(redraw := state.redraw.QueueRedraw())];
    }

    method QueueRedrawAll()
      modifies this`outputs
      ensures View() == RedrawModel.QueueRedrawAll(old(View()))
    {
      QueueRedraws(outputs.Keys);
    }

    /** One pass over the outputs in `which`, in any order. */
    method QueueRedraws(which: set<OutputId>)
      modifies this`outputs
      ensures View() == old(View()).(outputs := QueueSome(old(outputs), which))
    {
      var todo := which * outputs.Keys;
      while todo != {}
        invariant todo <= which * old(outputs).Keys
        invariant outputs == QueueSome(old(outputs), which - todo)
        decreases todo
      {
        var o :| o in todo;
        QueueRedraw(o);
        todo := todo - {o};
      }
    }

    method SendFrameCallbacks(o: OutputId, visible: set<SurfaceId>)
      requires o in outputs
      modifies this`lastSentAt, this`log
      ensures View() == RedrawModel.SendFrameCallbacks(old(View()), o, visible)
    {
      var sequence := outputs[o].sequence;
      var todo := visible;
      var granted := {};
      while todo != {}
        invariant todo <= visible
        invariant granted == Granted(old(View()), o, visible - todo)
        invariant log == old(log)
        invariant lastSentAt == old(lastSentAt) + (map s | s in granted :: (o, sequence))
        decreases todo
      {
        var s :| s in todo;
        var send := true;
        if s in lastSentAt && lastSentAt[s] == (o, sequence) {
          send := false;
        }
        if send {
          lastSentAt := lastSentAt[s := (o, sequence)];
          granted := granted + {s};
        }
        todo := todo - {s};
      }
      log := log + [FrameCallbacks(o, granted)];
      assert granted == Granted(old(View()), o, visible);
    }

    /** `confirmation.lock()`, after which the session counts as locked. */
    method ConfirmLock(client: LockId)
      modifies this`lockState, this`log
      ensures View() == Confirm(old(View()), client)
    {
      log := log + [LockConfirmed(client, Screens(View()))];
      lockState := LockState.Locked(client);
    }

    method Lock(client: LockId, holderAlive: bool)
      modifies this
      ensures View() == RedrawModel.Lock(old(View()), client, holderAlive)
    {
      if lockState.WaitingForSurfaces? || lockState.Locking? {
        return;
      }
      if lockState.Locked? {
        if holderAlive {
          return;
        }
        ConfirmLock(client);
        return;
      }
      if outputs == map[] {
        ConfirmLock(client);
      } else {
        var deadline := nextToken;
        nextToken := nextToken + 1;
        timers := timers[deadline := LockDeadline];
        lockState := WaitingForSurfaces(client, deadline);
      }
    }

    method ContinueToLocking()
      modifies this
      ensures View() == RedrawModel.ContinueToLocking(old(View()))
    {
      var taken := lockState;
      lockState := LockState.Unlocked;
      match taken
      case WaitingForSurfaces(client, deadline) =>
        timers := timers - {deadline};
        if outputs == map[] {
          ConfirmLock(client);
        } else {
          lockState := Locking(client);
          QueueRedrawAll();
        }
      case other =>
        lockState := other;
    }

    method MaybeContinueToLocking(mapped: set<SurfaceId>)
      modifies this
      ensures View() == RedrawModel.MaybeContinueToLocking(old(View()), mapped)
    {
      if !lockState.WaitingForSurfaces? {
        return;
      }
      var todo := outputs.Keys;
      while todo != {}
        invariant todo <= outputs.Keys
        invariant forall o | o in outputs.Keys - todo ::
          outputs[o].lockSurface.Some? && outputs[o].lockSurface.value in mapped
        decreases todo
      {
        var o :| o in todo;
        match outputs[o].lockSurface {
          case None => return;
          case Some(surface) =>
            if surface !in mapped {
              return;
            }
        }
        todo := todo - {o};
      }
      ContinueToLocking();
    }

    method Unlock()
      modifies this
      ensures View() == RedrawModel.Unlock(old(View()))
    {
      var prev := lockState;
      lockState := LockState.Unlocked;
      if prev.WaitingForSurfaces? {
        timers := timers - {prev.deadline};
      }
      var todo := outputs.Keys;
      while todo != {}
        invariant todo <= outputs.Keys == old(outputs).Keys
        invariant forall o | o in outputs ::
          outputs[o] == if o in todo then old(outputs)[o] else old(outputs)[o].(lockSurface := None)
        invariant lockState == LockState.Unlocked && monitorsActive == old(monitorsActive)
        invariant timers == if prev.WaitingForSurfaces? then old(timers) - {prev.deadline} else old(timers)
        invariant nextToken == old(nextToken) && nextOutput == old(nextOutput)
        invariant lastSentAt == old(lastSentAt) && log == old(log)
        decreases todo
      {
        var o :| o in todo;
        outputs := outputs[o := outputs[o].(lockSurface := None)];
        todo := todo - {o};
      }
      assert outputs == DropLockSurfaces(old(outputs));
      QueueRedrawAll();
    }

    method ActivateMonitors()
      modifies this`monitorsActive, this`outputs
      ensures View() == RedrawModel.ActivateMonitors(old(View()))
    {
      if monitorsActive {
        return;
      }
      monitorsActive := true;
      QueueRedrawAll();
    }

    method DeactivateMonitors()
      modifies this`monitorsActive, this`outputs
      ensures View() == RedrawModel.DeactivateMonitors(old(View()))
    {
      if !monitorsActive {
        return;
      }
      monitorsActive := false;
      var todo := outputs.Keys;
      while todo != {}
        invariant todo <= outputs.Keys == old(outputs).Keys
        invariant forall o | o in outputs ::
          outputs[o] == if o in todo then old(outputs)[o] else old(outputs)[o].(onScreen := Blank)
        invariant !monitorsActive
        decreases todo
      {
        var o :| o in todo;
        outputs := outputs[o := outputs[o].(onScreen := Blank)];
        todo := todo - {o};
      }
    }

    /** The session comes back from another virtual terminal. */
    method ResumeSession()
      modifies this`monitorsActive, this`outputs
      ensures View() == RedrawModel.ResumeSession(old(View()))
    {
      monitorsActive := true;
      QueueRedrawAll();
    }

    /** Surfaces of other clients than the lock holder are ignored. */
    method NewLockSurface(o: OutputId, surface: SurfaceId, client: LockId)
      modifies this`outputs
      ensures View() == RedrawModel.NewLockSurface(old(View()), o, surface, client)
    {
      if lockState.Unlocked? {
        return;
      }
      if lockState.client != client {
        return;
      }
      if o !in outputs {
        return;
      }
      outputs := outputs[o := outputs[o].(lockSurface := Some(surface))];
    }

    method LockSurfaceCommit(o: OutputId, mapped: set<SurfaceId>)
      requires o in outputs
      modifies this
      ensures View() == RedrawModel.LockSurfaceCommit(old(View()), o, mapped)
    {
      if lockState.WaitingForSurfaces? {
        MaybeContinueToLocking(mapped);
      } else {
        QueueRedraw(o);
      }
    }

    method AddOutput(moved: set<OutputId>) returns (o: OutputId)
      modifies this`outputs, this`nextOutput
      ensures o == old(nextOutput)
      ensures View() == RedrawModel.AddOutput(old(View()), moved)
    {
      var lockRender := LockRenderState.Unlocked;
      if lockState.IsLocked() {
        lockRender := LockRenderState.Locked;
      }
      o := nextOutput;
      nextOutput := nextOutput + 1;
      outputs := outputs[o := OutputState(Idle, lockRender, None, false, 0, Blank)];
      QueueRedraws(moved + {o});
    }

    method RemoveOutput(o: OutputId, moved: set<OutputId>, mapped: set<SurfaceId>, closedUi: bool)
      requires o in outputs
      modifies this
      ensures View() == RedrawModel.RemoveOutput(old(View()), o, moved, mapped, closedUi)
    {
      QueueRedraws(moved - {o});
      var state := outputs[o];
      outputs := outputs - {o};
      match state.redraw {
        case Idle =>
        case Queued =>
        case WaitingForVBlank(_) =>
        case WaitingForEstimatedVBlank(token) => timers := timers - {token};
        case WaitingForEstimatedVBlankAndQueued(token) => timers := timers - {token};
      }
      assert View() == old(View()).(outputs := QueueSome(old(outputs), moved - {o}) - {o},
                                    timers := WithoutToken(old(timers), old(outputs)[o].redraw.HeldToken()));
      if lockState.Locking? {
        if forall p | p in outputs :: outputs[p].lockRender == LockRenderState.Locked {
          ConfirmLock(lockState.client);
        }
      } else {
        MaybeContinueToLocking(mapped);
      }
      if closedUi {
        QueueRedrawAll();
      }
    }

    method QueueEstimatedVBlankTimer(o: OutputId)
      requires o in outputs && outputs[o].redraw.IsQueued()
      modifies this`outputs, this`timers, this`nextToken
      ensures View() == RedrawModel.QueueEstimatedVBlankTimer(old(View()), o)
    {
      var taken := outputs[o].redraw;
      outputs := outputs[o := outputs[o].(redraw := Idle)];
      match taken
      case Idle => assert false;
      case WaitingForVBlank(_) => assert false;
      case WaitingForEstimatedVBlank(_) => assert false;
      case WaitingForEstimatedVBlankAndQueued(token) =>
        outputs := outputs[o := outputs[o].(redraw := WaitingForEstimatedVBlank(token))];
      case Queued =>
        var token := nextToken;
        nextToken := nextToken + 1;
        timers := timers[token := EstimatedVBlank(o)];
        outputs := outputs[o := outputs[o].(redraw := WaitingForEstimatedVBlank(token))];
    }

    method Render(o: OutputId, input: RenderInput) returns (result: RenderResult)
      requires o in outputs && outputs[o].redraw.IsQueued()
      modifies this`outputs, this`timers, this`nextToken, this`log
      ensures (View(), result) == RedrawModel.Render(old(View()), o, input)
    {
      result := Skipped;
      if !input.reachable {
        return;
      }
      if input.rendered {
        var frame := FrameFor(lockState, input.content);
        if outputs[o].onScreen != frame {
          if input.frameQueued {
            var previous := outputs[o].redraw;
            outputs := outputs[o := outputs[o].(redraw := WaitingForVBlank(false), onScreen := frame)];
            match previous {
              case Idle => assert false;
              case Queued =>
              case WaitingForVBlank(_) => assert false;
              case WaitingForEstimatedVBlank(_) => assert false;
              case WaitingForEstimatedVBlankAndQueued(token) => timers := timers - {token};
            }
            outputs := outputs[o := outputs[o].(sequence := NextSequence(outputs[o].sequence))];
            log := log + [SequenceAdvanced(o)];
            assert outputs == old(outputs)[o := outputs[o]];
            return Submitted;
          }
        } else {
          result := NoDamage;
        }
      }
      QueueEstimatedVBlankTimer(o);
    }

    /** The drawing half of a redraw. */
    method DrawOutput(o: OutputId, input: RenderInput)
      requires o in outputs && outputs[o].redraw.IsQueued()
      modifies this`outputs, this`timers, this`nextToken, this`log
      ensures View() == RedrawModel.DrawOutput(old(View()), o, input)
    {
      var result := Skipped;
      if monitorsActive {
        outputs := outputs[o := outputs[o].(animating := input.animating)];
        result := Render(o, input);
      }
      label rendered:
      var isLocked := lockState.IsLocked();
      if result == Skipped {
        var held := outputs[o].redraw.HeldToken();
        var redraw := if held.Some? then WaitingForEstimatedVBlank(held.value) else Idle;
        outputs := outputs[o := outputs[o].(redraw := redraw)];
      }
      if result != Skipped || !monitorsActive {
        var lockRender := if isLocked then LockRenderState.Locked else LockRenderState.Unlocked;
        outputs := outputs[o := outputs[o].(lockRender := lockRender)];
      }
      assert outputs == old@rendered(outputs)[o := outputs[o]];
    }

    method Redraw(o: OutputId, input: RenderInput)
      requires o in outputs && outputs[o].redraw.IsQueued()
      modifies this
      ensures View() == RedrawModel.Redraw(old(View()), o, input)
    {
      DrawOutput(o, input);
      SettleLock(o);
      SendFrameCallbacks(o, input.visible);
    }

    /** The locking half of a redraw. */
    method SettleLock(o: OutputId)
      requires o in outputs
      modifies this
      ensures View() == RedrawModel.SettleLock(old(View()), o)
    {
      if lockState.Locking? {
        if outputs[o].lockRender == LockRenderState.Unlocked {
          Unlock();
        } else if forall p | p in outputs :: outputs[p].lockRender == LockRenderState.Locked {
          ConfirmLock(lockState.client);
        }
      }
    }

    /**
     * Redraws queued outputs, in any order, until none is left. It stops for every sequence of render
     * outcomes, and its effect is a run of redraws.
     */
    method RedrawQueuedOutputs(inputs: nat -> RenderInput) returns (ghost redraws: seq<Event>)
      modifies this
      ensures forall o | o in outputs :: !outputs[o].redraw.IsQueued()
      ensures forall e | e in redraws :: e.ERedraw?
      ensures Runs(old(View()), redraws) && View() == Run(old(View()), redraws)
    {
      redraws := [];
      var i := 0;
      var queued := set o | o in outputs && outputs[o].redraw.IsQueued();
      while queued != {}
        invariant queued == QueuedOutputs(View())
        invariant forall e | e in redraws :: e.ERedraw?
        invariant Runs(old(View()), redraws) && View() == Run(old(View()), redraws)
        decreases if lockState.Locking? then 1 else 0, queued
      {
        var o :| o in queued;
        var input := inputs(i);
        RunThenStep(old(View()), redraws, ERedraw(o, input));
        redraws := redraws + [ERedraw(o, input)];
        RedrawOne(o, input);
        i := i + 1;
        queued := set p | p in outputs && outputs[p].redraw.IsQueued();
      }
      forall o | o in outputs ensures !outputs[o].redraw.IsQueued() {
        assert o !in QueuedOutputs(View());
      }
    }

    /** One redraw ends the locking phase or leaves fewer outputs queued. */
    method RedrawOne(o: OutputId, input: RenderInput)
      requires o in outputs && outputs[o].redraw.IsQueued()
      modifies this
      ensures View() == RedrawModel.Redraw(old(View()), o, input)
      ensures (old(lockState).Locking? && !lockState.Locking?) ||
              (old(lockState).Locking? == lockState.Locking? && QueuedOutputs(View()) < QueuedOutputs(old(View())))
    {
      RedrawShrinksQueue(View(), o, input);
      Redraw(o, input);
    }

    method OnVBlank(o: OutputId, visible: set<SurfaceId>)
      modifies this
      ensures View() == RedrawModel.OnVBlank(old(View()), o, visible)
    {
      if o !in outputs {
        return;
      }
      var previous := outputs[o].redraw;
      outputs := outputs[o := outputs[o].(redraw := Idle)];
      var redrawNeeded := true;
      if previous.WaitingForVBlank? {
        redrawNeeded := previous.redrawNeeded;
      }
      if redrawNeeded || outputs[o].animating {
        QueueRedraw(o);
      } else {
        SendFrameCallbacks(o, visible);
      }
    }

    method OnEstimatedVBlankTimer(o: OutputId, visible: set<SurfaceId>)
      requires !TimerPanics(View(), o)
      modifies this
      ensures View() == RedrawModel.OnEstimatedVBlankTimer(old(View()), o, visible)
    {
      if o !in outputs {
        return;
      }
      outputs := outputs[o := outputs[o].(sequence := NextSequence(outputs[o].sequence))];
      log := log + [SequenceAdvanced(o)];
      var previous := outputs[o].redraw;
      outputs := outputs[o := outputs[o].(redraw := Idle)];
      match previous {
        case Idle => assert false;
        case Queued => assert false;
        case WaitingForVBlank(_) => assert false;
        case WaitingForEstimatedVBlank(_) =>
        case WaitingForEstimatedVBlankAndQueued(_) =>
          outputs := outputs[o := outputs[o].(redraw := Queued)];
          return;
      }
      if outputs[o].animating {
        QueueRedraw(o);
      } else {
        SendFrameCallbacks(o, visible);
      }
    }

    /** The event loop runs a timer's callback; in a linear state no arm of it is unreachable. */
    method OnTimer(t: Token, visible: set<SurfaceId>)
      requires t in timers && TimersLinear(View())
      modifies this
      ensures !Panics(old(View()), ETimer(t, visible))
      ensures View() == RedrawModel.OnTimer(old(View()), t, visible) && TimersLinear(View())
    {
      LinearMeansNoPanic(View(), ETimer(t, visible));
      StepKeepsLinearity(View(), ETimer(t, visible));
      var timer := timers[t];
      timers := timers - {t};
      match timer
      case LockDeadline => ContinueToLocking();
      case EstimatedVBlank(o) => OnEstimatedVBlankTimer(o, visible);
    }
  }
}
