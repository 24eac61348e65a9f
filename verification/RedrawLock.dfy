/**
 * The session lock: it is confirmed only over dark outputs, and locking cannot get stuck.
 *
 * An output is dark when the last frame handed to the kernel is a lock frame or nothing. The code
 * confirms a lock when a frame is submitted, not when it is presented, and so does this model.
 */
module RedrawLock {
  import opened Prelude
  import opened RedrawModel

  ghost predicate Dark(screens: map<OutputId, Frame>) {
    forall o | o in screens :: !screens[o].SessionFrame?
  }

  ghost predicate ConfirmationsDark(log: seq<Entry>) {
    forall i | 0 <= i < |log| && log[i].LockConfirmed? :: Dark(log[i].screens)
  }

  ghost predicate OutputHonest(st: OutputState, monitorsActive: bool) {
    && (st.lockRender == LockRenderState.Locked ==> !st.onScreen.SessionFrame?)
    && (!monitorsActive ==> st.onScreen == Blank)
  }

  ghost predicate OutputsHonest(w: World) {
    forall o | o in w.outputs :: OutputHonest(w.outputs[o], w.monitorsActive)
  }

  ghost predicate StillToLock(w: World, o: OutputId) {
    o in w.outputs && w.outputs[o].lockRender == LockRenderState.Unlocked
  }

  ghost predicate AllPending(w: World) {
    forall o | o in w.outputs :: w.outputs[o].redraw.Pending()
  }

  /** While locking, no output that still has to lock has lost its redraw, and some redraw is due. */
  ghost predicate LockingProgresses(w: World) {
    && w.outputs != map[]
    && (forall o | StillToLock(w, o) :: w.outputs[o].redraw.Pending())
    && (AllLocked(w) ==> AllPending(w))
  }

  /** Output ids are handed out once, so a new output is never already tracked. */
  ghost predicate OutputsNumbered(w: World) {
    forall o | o in w.outputs :: o < w.nextOutput
  }

  ghost predicate LockInv(w: World) {
    && OutputsNumbered(w)
    && OutputsHonest(w)
    && ConfirmationsDark(w.log)
    && (w.lock.Locked? ==> AllLocked(w))
    && (w.lock.Locking? ==> LockingProgresses(w))
  }

  // Building blocks.

  lemma ConfirmKeepsInv(w: World, client: LockId)
    requires OutputsNumbered(w) && OutputsHonest(w) && ConfirmationsDark(w.log) && AllLocked(w)
    ensures LockInv(Confirm(w, client))
  {
    assert Dark(Screens(w)) by {
      forall o | o in Screens(w) ensures !Screens(w)[o].SessionFrame? {
        assert OutputHonest(w.outputs[o], w.monitorsActive);
      }
    }
  }

  /** The outputs show and lock the same, and no redraw is lost. */
  ghost predicate NothingLost(w: World, w': World) {
    && w'.outputs.Keys == w.outputs.Keys && w'.nextOutput == w.nextOutput
    && w'.lock == w.lock && w'.monitorsActive == w.monitorsActive
    && forall o | o in w.outputs ::
         w'.outputs[o].lockRender == w.outputs[o].lockRender && w'.outputs[o].onScreen == w.outputs[o].onScreen &&
         (w.outputs[o].redraw.Pending() ==> w'.outputs[o].redraw.Pending())
  }

  lemma NothingLostKeepsInv(w: World, w': World)
    requires LockInv(w) && NothingLost(w, w') && ConfirmationsDark(w'.log)
    ensures LockInv(w')
  {
    forall o | o in w'.outputs ensures OutputHonest(w'.outputs[o], w'.monitorsActive) {
      assert OutputHonest(w.outputs[o], w.monitorsActive);
    }
    if AllLocked(w') {
      forall o | o in w.outputs ensures w.outputs[o].lockRender == LockRenderState.Locked {
        assert w'.outputs[o].lockRender == LockRenderState.Locked;
      }
    }
    forall o | StillToLock(w', o) ensures StillToLock(w, o) {
    }
  }

  lemma QueueingKeepsInv(w: World, which: set<OutputId>)
    requires LockInv(w)
    ensures LockInv(w.(outputs := QueueSome(w.outputs, which)))
  {
    NothingLostKeepsInv(w, w.(outputs := QueueSome(w.outputs, which)));
  }

  lemma ContinueKeepsInv(w: World)
    requires LockInv(w)
    ensures LockInv(ContinueToLocking(w))
  {
    if w.lock.WaitingForSurfaces? {
      var w1 := w.(timers := w.timers - {w.lock.deadline});
      if w.outputs == map[] {
        ConfirmKeepsInv(w1, w.lock.client);
      } else {
        var w2 := QueueRedrawAll(w1.(lock := Locking(w.lock.client)));
        assert w2.outputs.Keys == w.outputs.Keys;
      }
    }
  }

  lemma UnlockKeepsInv(w: World)
    requires OutputsNumbered(w) && OutputsHonest(w) && ConfirmationsDark(w.log)
    ensures LockInv(Unlock(w))
  {
  }

  lemma AddOutputKeepsInv(w: World, moved: set<OutputId>)
    requires LockInv(w)
    ensures LockInv(AddOutput(w, moved))
  {
    var w' := AddOutput(w, moved);
    assert w'.outputs[w.nextOutput].redraw == Queued;
    if w.lock.Locking? && AllLocked(w') {
      assert AllLocked(w) by {
        forall o | o in w.outputs ensures w.outputs[o].lockRender == LockRenderState.Locked {
          assert w'.outputs[o].lockRender == LockRenderState.Locked;
        }
      }
    }
  }

  lemma RemoveOutputKeepsInv(w: World, o: OutputId, moved: set<OutputId>, mapped: set<SurfaceId>, closedUi: bool)
    requires LockInv(w) && o in w.outputs
    ensures LockInv(RemoveOutput(w, o, moved, mapped, closedUi))
  {
    var w1 := w.(outputs := QueueSome(w.outputs, moved - {o}) - {o},
                 timers := WithoutToken(w.timers, w.outputs[o].redraw.HeldToken()));
    if w.lock.Locking? {
      if AllLocked(w1) {
        ConfirmKeepsInv(w1, w.lock.client);
      }
    } else if w.lock.WaitingForSurfaces? {
      ContinueKeepsInv(w1);
    }
    var w2 := RecheckLock(w1, mapped);
    QueueingKeepsInv(w2, w2.outputs.Keys);
  }

  // Redrawing.

  lemma DrawTouchesOne(w: World, o: OutputId, input: RenderInput)
    requires o in w.outputs && w.outputs[o].redraw.IsQueued()
    ensures var d := DrawOutput(w, o, input);
      && o in d.outputs && d.outputs == w.outputs[o := d.outputs[o]] && !d.outputs[o].redraw.IsQueued()
      && d.lock == w.lock && d.monitorsActive == w.monitorsActive && d.nextOutput == w.nextOutput
      && (ConfirmationsDark(w.log) ==> ConfirmationsDark(d.log))
  {
  }

  lemma DrawnIsHonest(w: World, o: OutputId, input: RenderInput)
    requires o in w.outputs && w.outputs[o].redraw.IsQueued() && OutputHonest(w.outputs[o], w.monitorsActive)
    ensures var d := DrawOutput(w, o, input);
      && OutputHonest(d.outputs[o], w.monitorsActive)
      && (w.outputs[o].lockRender == LockRenderState.Locked && w.lock.IsLocked() ==>
            d.outputs[o].lockRender == LockRenderState.Locked)
  {
  }

  lemma {:induction false} DrawKeepsHonesty(w: World, o: OutputId, input: RenderInput)
    requires LockInv(w) && o in w.outputs && w.outputs[o].redraw.IsQueued()
    ensures var d := DrawOutput(w, o, input);
      && OutputsNumbered(d) && OutputsHonest(d) && ConfirmationsDark(d.log)
      && (w.lock.Locked? ==> AllLocked(d))
  {
    DrawTouchesOne(w, o, input);
    assert OutputHonest(w.outputs[o], w.monitorsActive);
    DrawnIsHonest(w, o, input);
    TouchedIsHonest(w, DrawOutput(w, o, input), o);
  }

  lemma TouchedIsHonest(w: World, d: World, o: OutputId)
    requires LockInv(w) && o in w.outputs && o in d.outputs && d.outputs == w.outputs[o := d.outputs[o]]
    requires d.monitorsActive == w.monitorsActive && d.nextOutput == w.nextOutput
    requires OutputHonest(d.outputs[o], w.monitorsActive)
    requires w.lock.Locked? ==> d.outputs[o].lockRender == LockRenderState.Locked
    ensures OutputsNumbered(d) && OutputsHonest(d) && (w.lock.Locked? ==> AllLocked(d))
  {
    forall p | p in d.outputs ensures OutputHonest(d.outputs[p], d.monitorsActive) {
      if p != o {
        assert OutputHonest(w.outputs[p], w.monitorsActive);
      }
    }
  }

  lemma SettleKeepsInv(w: World, o: OutputId)
    requires OutputsNumbered(w) && OutputsHonest(w) && ConfirmationsDark(w.log)
    requires w.lock.Locked? ==> AllLocked(w)
    requires w.lock.Locking? ==> forall p | StillToLock(w, p) && p != o :: w.outputs[p].redraw.Pending()
    requires o in w.outputs
    ensures LockInv(SettleLock(w, o))
  {
    if w.lock.Locking? {
      if w.outputs[o].lockRender == LockRenderState.Unlocked {
        UnlockKeepsInv(w);
      } else if AllLocked(w) {
        ConfirmKeepsInv(w, w.lock.client);
      }
    }
  }

  lemma CallbacksKeepInv(w: World, o: OutputId, visible: set<SurfaceId>)
    requires LockInv(w) && o in w.outputs
    ensures LockInv(SendFrameCallbacks(w, o, visible))
  {
  }

  lemma RedrawKeepsInv(w: World, o: OutputId, input: RenderInput)
    requires LockInv(w) && o in w.outputs && w.outputs[o].redraw.IsQueued()
    ensures LockInv(Redraw(w, o, input))
  {
    DrawKeepsHonesty(w, o, input);
    DrawTouchesOne(w, o, input);
    var d := DrawOutput(w, o, input);
    if w.lock.Locking? {
      forall p | StillToLock(d, p) && p != o ensures d.outputs[p].redraw.Pending() {
        assert StillToLock(w, p);
      }
    }
    SettleKeepsInv(d, o);
    CallbacksKeepInv(SettleLock(d, o), o, input.visible);
  }

  // VBlanks and timers.

  /** Only the outputs' redraw state and sequence, and entries other than confirmations, may differ. */
  lemma AfterVBlankKeepsInv(w: World, w1: World, o: OutputId, redrawNeeded: bool, visible: set<SurfaceId>)
    requires LockInv(w) && o in w.outputs
    requires w1 == w.(outputs := w1.outputs, log := w1.log)
    requires o in w1.outputs && w1.outputs == w.outputs[o := w1.outputs[o]]
    requires w1.outputs[o] == w.outputs[o].(sequence := w1.outputs[o].sequence)
    requires ConfirmationsDark(w1.log)
    requires w.outputs[o].redraw.Pending() ==> redrawNeeded
    ensures LockInv(AfterVBlank(w1, o, redrawNeeded, visible))
  {
    NothingLostKeepsInv(w, AfterVBlank(w1, o, redrawNeeded, visible));
  }

  lemma VBlankKeepsInv(w: World, o: OutputId, visible: set<SurfaceId>)
    requires LockInv(w)
    ensures LockInv(OnVBlank(w, o, visible))
  {
    if o in w.outputs {
      var redraw := w.outputs[o].redraw;
      AfterVBlankKeepsInv(w, w, o, if redraw.WaitingForVBlank? then redraw.redrawNeeded else true, visible);
    }
  }

  lemma EstimatedVBlankKeepsInv(w: World, o: OutputId, visible: set<SurfaceId>)
    requires LockInv(w) && !TimerPanics(w, o)
    ensures LockInv(OnEstimatedVBlankTimer(w, o, visible))
  {
    if o in w.outputs {
      var st := w.outputs[o];
      var w1 := w.(outputs := w.outputs[o := st.(sequence := NextSequence(st.sequence))],
                   log := w.log + [SequenceAdvanced(o)]);
      if !st.redraw.WaitingForEstimatedVBlankAndQueued? {
        AfterVBlankKeepsInv(w, w1, o, false, visible);
      } else {
        NothingLostKeepsInv(w, OnEstimatedVBlankTimer(w, o, visible));
      }
    }
  }

  lemma TimerKeepsInv(w: World, t: Token, visible: set<SurfaceId>)
    requires LockInv(w) && t in w.timers
    requires w.timers[t].EstimatedVBlank? ==> !TimerPanics(w, w.timers[t].output)
    ensures LockInv(OnTimer(w, t, visible))
  {
    var w1 := w.(timers := w.timers - {t});
    assert LockInv(w1);
    match w.timers[t]
    case LockDeadline => ContinueKeepsInv(w1);
    case EstimatedVBlank(o) => EstimatedVBlankKeepsInv(w1, o, visible);
  }

  lemma ClientUnlockKeepsInv(w: World)
    requires LockInv(w)
    ensures LockInv(ActivateMonitors(Unlock(w)))
  {
    UnlockKeepsInv(w);
    var w1 := Unlock(w);
    if !w1.monitorsActive {
      QueueingKeepsInv(w1.(monitorsActive := true), w1.outputs.Keys);
    }
  }

  lemma LockRequestKeepsInv(w: World, client: LockId, holderAlive: bool)
    requires LockInv(w)
    ensures LockInv(Lock(w, client, holderAlive))
  {
    if (w.lock.Locked? && !holderAlive) || (w.lock.Unlocked? && w.outputs == map[]) {
      ConfirmKeepsInv(w, client);
    }
  }

  // One event, then runs.

  lemma StepKeepsLockInv(w: World, e: Event)
    requires LockInv(w) && Possible(w, e) && !Panics(w, e)
    ensures LockInv(Step(w, e))
  {
    match e
    case EQueueRedraw(o) =>
      assert QueueRedraw(w, o).outputs == QueueSome(w.outputs, {o});
      QueueingKeepsInv(w, {o});
    case EQueueRedrawAll => QueueingKeepsInv(w, w.outputs.Keys);
    case ERedraw(o, input) => RedrawKeepsInv(w, o, input);
    case EVBlank(o, visible) => VBlankKeepsInv(w, o, visible);
    case ETimer(t, visible) => TimerKeepsInv(w, t, visible);
    case ELock(client, alive) => LockRequestKeepsInv(w, client, alive);
    case EUnlock => ClientUnlockKeepsInv(w);
    case ENewLockSurface(o, surface, client) => LockSurfaceKeepsInv(w, o, surface, client);
    case ELockSurfaceCommit(o, mapped) =>
      if w.lock.WaitingForSurfaces? {
        ContinueKeepsInv(w);
      } else {
        assert QueueRedraw(w, o).outputs == QueueSome(w.outputs, {o});
        QueueingKeepsInv(w, {o});
      }
    case EAddOutput(moved) => AddOutputKeepsInv(w, moved);
    case ERemoveOutput(o, moved, mapped, closedUi) => RemoveOutputKeepsInv(w, o, moved, mapped, closedUi);
    case EDeactivateMonitors => MonitorsOffKeepsInv(w);
    case EActivateMonitors => QueueingKeepsInv(w.(monitorsActive := true), w.outputs.Keys);
    case EResumeSession => QueueingKeepsInv(w.(monitorsActive := true), w.outputs.Keys);
  }

  lemma LockSurfaceKeepsInv(w: World, o: OutputId, surface: SurfaceId, client: LockId)
    requires LockInv(w)
    ensures LockInv(NewLockSurface(w, o, surface, client))
  {
    NothingLostKeepsInv(w, NewLockSurface(w, o, surface, client));
  }

  lemma MonitorsOffKeepsInv(w: World)
    requires LockInv(w)
    ensures LockInv(DeactivateMonitors(w))
  {
    var w' := DeactivateMonitors(w);
    assert w'.outputs.Keys == w.outputs.Keys;
    assert forall p | p in w.outputs ::
      w'.outputs[p].redraw == w.outputs[p].redraw && w'.outputs[p].lockRender == w.outputs[p].lockRender;
    assert AllLocked(w') == AllLocked(w);
  }

  lemma {:induction false} RunKeepsLockInv(w: World, events: seq<Event>)
    requires LockInv(w) && Runs(w, events)
    ensures LockInv(Run(w, events))
    decreases |events|
  {
    if events != [] {
      StepKeepsLockInv(w, events[0]);
      RunKeepsLockInv(Step(w, events[0]), events[1..]);
    }
  }

  // Main results.

  /** Lock safety, over every run from start-up: no interleaving confirms a lock while an output shows the session. */
  lemma LockedMeansDark(events: seq<Event>)
    requires Runs(Initial(), events)
    ensures var w := Run(Initial(), events);
      && ConfirmationsDark(w.log)
      && (w.lock.Locked? ==> Dark(Screens(w)))
  {
    RunKeepsLockInv(Initial(), events);
    var w := Run(Initial(), events);
    forall o | o in w.outputs && w.lock.Locked? ensures !w.outputs[o].onScreen.SessionFrame? {
      assert OutputHonest(w.outputs[o], w.monitorsActive);
    }
  }

  /** Once locked, only an unlock request ends it: redraws, failures, hot-plug and other lockers do not. */
  lemma {:induction false} LockedUntilUnlockRequest(w: World, events: seq<Event>)
    requires LockInv(w) && w.lock.Locked? && Runs(w, events)
    requires EUnlock !in events
    ensures Run(w, events).lock.Locked? && Dark(Screens(Run(w, events)))
    decreases |events|
  {
    if events == [] {
      forall o | o in w.outputs ensures !w.outputs[o].onScreen.SessionFrame? {
        assert OutputHonest(w.outputs[o], w.monitorsActive);
      }
    } else {
      StepKeepsLockInv(w, events[0]);
      assert events[0] in events;
      assert Step(w, events[0]).lock.Locked?;
      LockedUntilUnlockRequest(Step(w, events[0]), events[1..]);
    }
  }

  ghost predicate StaysLocking(w: World, events: seq<Event>)
    requires Runs(w, events)
    decreases |events|
  {
    w.lock.Locking? && (events == [] || StaysLocking(Step(w, events[0]), events[1..]))
  }

  ghost predicate SameLocks(w: World, w': World) {
    && w'.outputs.Keys == w.outputs.Keys
    && forall p | p in w.outputs :: w'.outputs[p].lockRender == w.outputs[p].lockRender
  }

  lemma TimerKeepsLocks(w: World, t: Token, visible: set<SurfaceId>)
    requires t in w.timers && w.lock.Locking?
    requires w.timers[t].EstimatedVBlank? ==> !TimerPanics(w, w.timers[t].output)
    ensures SameLocks(w, OnTimer(w, t, visible))
  {
  }

  lemma OtherEventsKeepLocks(w: World, e: Event)
    requires w.lock.Locking? && Possible(w, e) && !Panics(w, e)
    requires !e.ERedraw? && !e.EAddOutput? && !e.ERemoveOutput?
    ensures SameLocks(w, Step(w, e))
  {
    match e
    case ETimer(t, visible) => TimerKeepsLocks(w, t, visible);
    case _ =>
  }

  lemma SettledStaysLocking(d: World, o: OutputId)
    requires o in d.outputs && d.lock.Locking? && SettleLock(d, o).lock.Locking?
    ensures SettleLock(d, o) == d && d.outputs[o].lockRender == LockRenderState.Locked && !AllLocked(d)
  {
  }

  lemma RedrawWhileLocking(w: World, o: OutputId, input: RenderInput)
    requires w.lock.Locking? && o in w.outputs && w.outputs[o].redraw.IsQueued()
    requires Redraw(w, o, input).lock.Locking?
    ensures forall p | StillToLock(Redraw(w, o, input), p) :: StillToLock(w, p) && p != o
    ensures !AllLocked(Redraw(w, o, input))
  {
    DrawTouchesOne(w, o, input);
    SettledStaysLocking(DrawOutput(w, o, input), o);
    assert Redraw(w, o, input).outputs == DrawOutput(w, o, input).outputs;
  }

  lemma RemovalWhileLocking(w: World, o: OutputId, moved: set<OutputId>, mapped: set<SurfaceId>, closedUi: bool)
    requires w.lock.Locking? && o in w.outputs
    requires RemoveOutput(w, o, moved, mapped, closedUi).lock.Locking?
    ensures var w' := RemoveOutput(w, o, moved, mapped, closedUi);
      !AllLocked(w') && forall p | StillToLock(w', p) :: StillToLock(w, p)
  {
    var w1 := w.(outputs := QueueSome(w.outputs, moved - {o}) - {o},
                 timers := WithoutToken(w.timers, w.outputs[o].redraw.HeldToken()));
    assert SameLocks(w1, RemoveOutput(w, o, moved, mapped, closedUi));
  }

  /** While locking lasts, outputs only ever go from still-to-lock to locked, and a redraw never leaves all of them locked. */
  lemma LockingStep(w: World, e: Event)
    requires LockInv(w) && Possible(w, e) && !Panics(w, e)
    requires w.lock.Locking? && Step(w, e).lock.Locking?
    ensures forall p | StillToLock(Step(w, e), p) :: StillToLock(w, p) && !(e.ERedraw? && e.o == p)
    ensures AllLocked(Step(w, e)) ==> AllLocked(w) && !e.ERedraw?
  {
    match e
    case ERedraw(o, input) => RedrawWhileLocking(w, o, input);
    case ERemoveOutput(o, moved, mapped, closedUi) => RemovalWhileLocking(w, o, moved, mapped, closedUi);
    case EAddOutput(moved) =>
      var w' := Step(w, e);
      assert forall p | p in w.outputs :: w'.outputs[p].lockRender == w.outputs[p].lockRender;
    case _ => OtherEventsKeepLocks(w, e);
  }

  ghost predicate Redrawn(events: seq<Event>, o: OutputId) {
    exists i :: 0 <= i < |events| && events[i].ERedraw? && events[i].o == o
  }

  lemma {:induction false} LockingRun(w: World, events: seq<Event>)
    requires LockInv(w) && Runs(w, events) && StaysLocking(w, events)
    ensures Run(w, events).lock.Locking?
    ensures forall p | StillToLock(Run(w, events), p) :: StillToLock(w, p) && !Redrawn(events, p)
    ensures AllLocked(Run(w, events)) ==> AllLocked(w) && forall p :: !Redrawn(events, p)
    decreases |events|
  {
    if events != [] {
      var e, rest := events[0], events[1..];
      var w1 := Step(w, e);
      StepKeepsLockInv(w, e);
      assert StaysLocking(w1, rest);
      assert w1.lock.Locking?;
      LockingStep(w, e);
      LockingRun(w1, rest);
      forall p | Redrawn(events, p) ensures (e.ERedraw? && e.o == p) || Redrawn(rest, p) {
        var i :| 0 <= i < |events| && events[i].ERedraw? && events[i].o == p;
        assert i == 0 || events[i] == rest[i - 1];
      }
    }
  }

  lemma RedrawnOutputsAreLocked(w: World, events: seq<Event>)
    requires LockInv(w) && Runs(w, events) && StaysLocking(w, events)
    requires forall o | StillToLock(w, o) :: Redrawn(events, o) || o !in Run(w, events).outputs
    ensures AllLocked(Run(w, events))
  {
    LockingRun(w, events);
    var w' := Run(w, events);
    forall o | o in w'.outputs ensures w'.outputs[o].lockRender == LockRenderState.Locked {
      assert !StillToLock(w', o);
    }
  }

  /**
   * Locking cannot get stuck: once every output that was still to lock has been redrawn or removed, and
   * something was redrawn if there was none, the lock has been confirmed or given up on the way.
   */
  lemma LockingResolves(w: World, events: seq<Event>)
    requires LockInv(w) && Runs(w, events)
    requires forall o | StillToLock(w, o) :: Redrawn(events, o) || o !in Run(w, events).outputs
    requires AllLocked(w) ==> exists o :: Redrawn(events, o)
    ensures !StaysLocking(w, events)
  {
    if StaysLocking(w, events) {
      RedrawnOutputsAreLocked(w, events);
      LockingRun(w, events);
      assert false;
    }
  }

  /** When the redraw loop has nothing left and the session is still locking, only VBlanks are being waited for. */
  lemma DrainedLockingWaitsForVBlank(w: World)
    requires LockInv(w) && w.lock.Locking?
    requires forall o | o in w.outputs :: !w.outputs[o].redraw.IsQueued()
    ensures exists o :: o in w.outputs && w.outputs[o].redraw == WaitingForVBlank(true)
    ensures forall o | StillToLock(w, o) :: w.outputs[o].redraw == WaitingForVBlank(true)
    ensures forall o, visible | StillToLock(w, o) ::
      Step(w, EVBlank(o, visible)).outputs[o].redraw == Queued && Step(w, EVBlank(o, visible)).lock == w.lock
  {
    if AllLocked(w) {
      var o :| o in w.outputs;
      assert w.outputs[o].redraw.Pending();
    } else {
      var o :| o in w.outputs && w.outputs[o].lockRender != LockRenderState.Locked;
      assert StillToLock(w, o);
    }
  }

  /** The outputs the redraw loop has left to do. */
  function QueuedOutputs(w: World): set<OutputId> {
    set o | o in w.outputs && w.outputs[o].redraw.IsQueued()
  }

  lemma SettlingKeepsQueue(d: World, o: OutputId)
    requires o in d.outputs
    ensures SettleLock(d, o).lock.Locking? == d.lock.Locking? ==> QueuedOutputs(SettleLock(d, o)) == QueuedOutputs(d)
    ensures SettleLock(d, o).lock.Locking? ==> d.lock.Locking?
  {
  }

  /**
   * Each pass of the redraw loop takes its output off the queue and adds none, unless it ends the locking
   * phase; so the loop stops even though a failed redraw unlocks and queues every output again.
   */
  lemma RedrawShrinksQueue(w: World, o: OutputId, input: RenderInput)
    requires o in w.outputs && w.outputs[o].redraw.IsQueued()
    ensures var w' := Redraw(w, o, input);
      || (w.lock.Locking? && !w'.lock.Locking?)
      || (w'.lock.Locking? == w.lock.Locking? && QueuedOutputs(w') == QueuedOutputs(w) - {o})
  {
    DrawTouchesOne(w, o, input);
    var d := DrawOutput(w, o, input);
    assert QueuedOutputs(d) == QueuedOutputs(w) - {o};
    SettlingKeepsQueue(d, o);
    assert QueuedOutputs(Redraw(w, o, input)) == QueuedOutputs(SettleLock(d, o));
  }
}
