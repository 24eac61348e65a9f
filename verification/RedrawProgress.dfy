/**
 * What the redraw and lock protocol is there to bring about: a lock request ends in a confirmed lock, a queued output
 * shows what is rendered, and an animation keeps its output redrawing.
 */
module RedrawProgress {
  import opened Prelude
  import opened RedrawModel
  import opened RedrawCallbacks
  import opened RedrawLock
  import opened RedrawTimers

  // Queueing.

  /** Queueing leaves a redraw to come, keeps what is being waited for, and touches no other output. */
  lemma QueueingMakesPending(w: World, which: set<OutputId>, o: OutputId)
    requires o in w.outputs
    ensures var before, after := w.outputs[o], QueueSome(w.outputs, which)[o];
      && (o in which ==>
            && after.redraw.Pending()
            && after.redraw.HeldToken() == before.redraw.HeldToken()
            && after.redraw.WaitingForVBlank? == before.redraw.WaitingForVBlank?)
      && after == before.(redraw := if o in which then after.redraw else before.redraw)
    ensures QueueSome(w.outputs, which).Keys == w.outputs.Keys
    ensures QueueRedraw(w, o) == w.(outputs := QueueSome(w.outputs, {o}))
  {
    assert QueueRedraw(w, o).outputs == QueueSome(w.outputs, {o});
  }

  // From a lock request to the lock.

  /** The world after `before` is `before` with the lock confirmed to `client` over the screens as they are. */
  ghost predicate ConfirmedOver(before: World, after: World, client: LockId) {
    && after == before.(lock := LockState.Locked(client), log := after.log)
    && after.log == before.log + [LockConfirmed(client, map o | o in before.outputs :: before.outputs[o].onScreen)]
  }

  /**
   * How a lock request is answered. An unlocked session with outputs starts to wait, with a new deadline running;
   * without outputs, or when the holder of the lock has died, the lock is confirmed at once; a live holder or a
   * locker at work keeps what it has.
   */
  lemma LockRequestIsAnswered(w: World, client: LockId, alive: bool)
    requires TimersLinear(w)
    ensures var w' := Step(w, ELock(client, alive));
      if w.lock.Unlocked? && w.outputs != map[] then
        && w'.lock.WaitingForSurfaces? && w'.lock.client == client && w'.lock.deadline !in w.timers
        && w'.timers == w.timers[w'.lock.deadline := LockDeadline]
        && w' == w.(lock := w'.lock, timers := w'.timers, nextToken := w'.nextToken)
      else if w.lock.Unlocked? || (w.lock.Locked? && !alive) then ConfirmedOver(w, w', client)
      else w' == w
  {
    assert w.nextToken !in w.timers;
  }

  /** Locking has begun for `client`: the deadline is gone and every output has a redraw due. */
  ghost predicate LockingBegun(before: World, after: World, client: LockId) {
    && after.lock == Locking(client)
    && (before.lock.WaitingForSurfaces? ==> before.lock.deadline !in after.timers)
    && after.outputs.Keys == before.outputs.Keys
    && (forall o | o in after.outputs :: after.outputs[o].redraw.Pending())
    && after.log == before.log
  }

  /** The deadline starts the locking, whatever surfaces are still missing. */
  lemma DeadlineStartsLocking(w: World, visible: set<SurfaceId>)
    requires TimersLinear(w) && w.lock.WaitingForSurfaces? && w.outputs != map[]
    ensures Possible(w, ETimer(w.lock.deadline, visible)) && !Panics(w, ETimer(w.lock.deadline, visible))
    ensures LockingBegun(w, Step(w, ETimer(w.lock.deadline, visible)), w.lock.client)
  {
    ContinuingBegins(w);
  }

  lemma ContinuingBegins(w: World)
    requires w.lock.WaitingForSurfaces? && w.outputs != map[]
    ensures LockingBegun(w, ContinueToLocking(w), w.lock.client)
    ensures ContinueToLocking(w.(timers := w.timers - {w.lock.deadline})) == ContinueToLocking(w)
  {
    assert w.timers - {w.lock.deadline} - {w.lock.deadline} == w.timers - {w.lock.deadline};
    var w1 := w.(timers := w.timers - {w.lock.deadline}, lock := Locking(w.lock.client));
    forall o | o in w.outputs ensures ContinueToLocking(w).outputs[o].redraw.Pending() {
      QueueingMakesPending(w1, w1.outputs.Keys, o);
    }
  }

  /** A commit while waiting starts the locking exactly when every output has a lock surface and all are mapped. */
  lemma LastSurfaceStartsLocking(w: World, o: OutputId, mapped: set<SurfaceId>)
    requires w.lock.WaitingForSurfaces? && o in w.outputs
    ensures var w' := Step(w, ELockSurfaceCommit(o, mapped));
      if forall p | p in w.outputs :: w.outputs[p].lockSurface.Some? && w.outputs[p].lockSurface.value in mapped
      then LockingBegun(w, w', w.lock.client) else w' == w
  {
    ContinuingBegins(w);
  }

  /** A commit of a lock surface at any other time has its output redrawn. */
  lemma LaterCommitRedraws(w: World, o: OutputId, mapped: set<SurfaceId>)
    requires !w.lock.WaitingForSurfaces? && o in w.outputs
    ensures var w' := Step(w, ELockSurfaceCommit(o, mapped));
      && w' == w.(outputs := w'.outputs) && w'.outputs.Keys == w.outputs.Keys
      && w'.outputs[o].redraw.Pending()
      && forall p | p in w.outputs && p != o :: w'.outputs[p] == w.outputs[p]
  {
    QueueingMakesPending(w, {o}, o);
  }

  /** Only the client that is locking, or has locked, can give an output its lock surface. */
  lemma LockSurfaceIsTaken(w: World, o: OutputId, surface: SurfaceId, client: LockId)
    ensures var w' := Step(w, ENewLockSurface(o, surface, client));
      if o in w.outputs && (w.lock.WaitingForSurfaces? || w.lock.IsLocked()) && w.lock.client == client
      then w' == w.(outputs := w.outputs[o := w.outputs[o].(lockSurface := Some(surface))]) else w' == w
  {
  }

  /**
   * The backend gets `content` on the screen, or finds it there already; or the monitors are off and there is
   * nothing to show.
   */
  predicate Succeeds(w: World, o: OutputId, input: RenderInput)
    requires o in w.outputs
  {
    || !w.monitorsActive
    || (input.reachable && input.rendered &&
        (input.frameQueued || w.outputs[o].onScreen == if w.lock.IsLocked() then LockFrame(input.content) else SessionFrame(input.content)))
  }

  /** Neither a failing redraw nor an unlock request, and no other client takes the lock over from a dead one. */
  predicate Undisturbed(w: World, e: Event) {
    match e
    case ERedraw(o, input) => o in w.outputs ==> Succeeds(w, o, input)
    case EUnlock => false
    case ELock(_, alive) => alive
    case _ => true
  }

  ghost predicate UndisturbedRun(w: World, events: seq<Event>)
    requires Runs(w, events)
    decreases |events|
  {
    events == [] || (Undisturbed(w, events[0]) && UndisturbedRun(Step(w, events[0]), events[1..]))
  }

  /** The lock has been confirmed to `client` since the log was `log`. */
  ghost predicate ConfirmedSince(log: seq<Entry>, w: World, client: LockId) {
    exists i :: |log| <= i < |w.log| && w.log[i].LockConfirmed? && w.log[i].client == client
  }

  ghost predicate StillLocking(w: World, w': World, client: LockId) {
    w'.lock == Locking(client) || (w'.lock == LockState.Locked(client) && ConfirmedSince(w.log, w', client))
  }

  lemma DrawSucceeds(w: World, o: OutputId, input: RenderInput)
    requires o in w.outputs && w.outputs[o].redraw.IsQueued() && w.lock.IsLocked() && Succeeds(w, o, input)
    ensures var d := DrawOutput(w, o, input);
      o in d.outputs && d.outputs[o].lockRender == LockRenderState.Locked && d.lock == w.lock && w.log <= d.log
  {
  }

  lemma RedrawKeepsLocking(w: World, o: OutputId, input: RenderInput)
    requires o in w.outputs && w.outputs[o].redraw.IsQueued() && w.lock.Locking? && Succeeds(w, o, input)
    ensures StillLocking(w, Redraw(w, o, input), w.lock.client)
  {
    DrawSucceeds(w, o, input);
    var d := DrawOutput(w, o, input);
    var w' := Redraw(w, o, input);
    if AllLocked(d) {
      assert w'.log[|d.log|] == LockConfirmed(w.lock.client, Screens(d));
    }
  }

  lemma RemovalKeepsLocking(w: World, o: OutputId, moved: set<OutputId>, mapped: set<SurfaceId>, closedUi: bool)
    requires o in w.outputs && w.lock.Locking?
    ensures StillLocking(w, RemoveOutput(w, o, moved, mapped, closedUi), w.lock.client)
  {
    var w1 := w.(outputs := QueueSome(w.outputs, moved - {o}) - {o},
                 timers := WithoutToken(w.timers, w.outputs[o].redraw.HeldToken()));
    var w' := RemoveOutput(w, o, moved, mapped, closedUi);
    if AllLocked(w1) {
      assert w'.log[|w.log|] == LockConfirmed(w.lock.client, Screens(w1));
    }
  }

  lemma StepKeepsLocking(w: World, e: Event)
    requires w.lock.Locking? && Possible(w, e) && !Panics(w, e) && Undisturbed(w, e)
    ensures StillLocking(w, Step(w, e), w.lock.client)
  {
    match e
    case ERedraw(o, input) => RedrawKeepsLocking(w, o, input);
    case ERemoveOutput(o, moved, mapped, closedUi) => RemovalKeepsLocking(w, o, moved, mapped, closedUi);
    case _ =>
  }

  lemma LockedStays(w: World, e: Event)
    requires w.lock.Locked? && Possible(w, e) && !Panics(w, e) && Undisturbed(w, e)
    ensures Step(w, e).lock == w.lock
  {
  }

  lemma ConfirmedStays(log: seq<Entry>, w: World, w': World, client: LockId)
    requires ConfirmedSince(log, w, client) && w.log <= w'.log
    ensures ConfirmedSince(log, w', client)
  {
    var i :| |log| <= i < |w.log| && w.log[i].LockConfirmed? && w.log[i].client == client;
    assert w'.log[i] == w.log[i];
  }

  lemma {:induction false} UndisturbedStaysLocked(w: World, events: seq<Event>)
    requires w.lock.Locked? && Runs(w, events) && UndisturbedRun(w, events)
    ensures Run(w, events).lock == w.lock && w.log <= Run(w, events).log
    decreases |events|
  {
    if events != [] {
      LockedStays(w, events[0]);
      LogGrows(w, events[0]);
      UndisturbedStaysLocked(Step(w, events[0]), events[1..]);
    }
  }

  lemma {:induction false} UndisturbedKeepsLocking(w: World, events: seq<Event>)
    requires w.lock.Locking? && Runs(w, events) && UndisturbedRun(w, events)
    ensures StaysLocking(w, events) || (Run(w, events).lock == LockState.Locked(w.lock.client) &&
                                        ConfirmedSince(w.log, Run(w, events), w.lock.client))
    decreases |events|
  {
    if events != [] {
      var w1, rest := Step(w, events[0]), events[1..];
      StepKeepsLocking(w, events[0]);
      LogGrows(w, events[0]);
      if w1.lock.Locking? {
        UndisturbedKeepsLocking(w1, rest);
        if ConfirmedSince(w1.log, Run(w1, rest), w.lock.client) {
          ConfirmedLater(w.log, w1.log, Run(w1, rest), w.lock.client);
        }
      } else {
        UndisturbedStaysLocked(w1, rest);
        ConfirmedStays(w.log, w1, Run(w1, rest), w.lock.client);
      }
    }
  }

  lemma ConfirmedLater(log: seq<Entry>, later: seq<Entry>, w: World, client: LockId)
    requires |log| <= |later| && ConfirmedSince(later, w, client)
    ensures ConfirmedSince(log, w, client)
  {
  }

  /**
   * Locking ends in the lock: if no redraw fails, nobody unlocks, and every output still to lock is redrawn or
   * removed (and one is redrawn if there was none), the lock is confirmed to the client that asked for it.
   */
  lemma LockingEndsLocked(w: World, events: seq<Event>)
    requires LockInv(w) && w.lock.Locking? && Runs(w, events) && UndisturbedRun(w, events)
    requires forall o | StillToLock(w, o) :: Redrawn(events, o) || o !in Run(w, events).outputs
    requires AllLocked(w) ==> exists o :: Redrawn(events, o)
    ensures Run(w, events).lock == LockState.Locked(w.lock.client)
    ensures ConfirmedSince(w.log, Run(w, events), w.lock.client)
  {
    UndisturbedKeepsLocking(w, events);
    LockingResolves(w, events);
  }

  /** The rest of the way, once the request has been answered and the deadline has passed. */
  ghost predicate EndsLocked(before: World, locking: World, client: LockId, events: seq<Event>) {
    Runs(locking, events) && UndisturbedRun(locking, events) && (forall o | o in before.outputs :: Redrawn(events, o)) ==>
      Run(locking, events).lock == LockState.Locked(client) && ConfirmedSince(before.log, Run(locking, events), client)
  }

  /**
   * From the request to the lock: when a client asks an unlocked session with outputs for the lock, the deadline
   * passes, and then every output is redrawn undisturbed, the session is locked and the client has been told.
   */
  lemma RequestEndsLocked(w: World, client: LockId, alive: bool, visible: set<SurfaceId>, events: seq<Event>)
    requires LockInv(w) && TimersLinear(w) && w.lock.Unlocked? && w.outputs != map[]
    ensures var waiting := Step(w, ELock(client, alive));
      && waiting.lock.WaitingForSurfaces?
      && var deadline := ETimer(waiting.lock.deadline, visible);
         && Possible(waiting, deadline) && !Panics(waiting, deadline)
         && EndsLocked(w, Step(waiting, deadline), client, events)
  {
    LockRequestIsAnswered(w, client, alive);
    var waiting := Step(w, ELock(client, alive));
    var deadline := ETimer(waiting.lock.deadline, visible);
    StepKeepsLockInv(w, ELock(client, alive));
    StepKeepsLinearity(w, ELock(client, alive));
    DeadlineStartsLocking(waiting, visible);
    StepKeepsLockInv(waiting, deadline);
    var locking := Step(waiting, deadline);
    if Runs(locking, events) && UndisturbedRun(locking, events) && forall o | o in w.outputs :: Redrawn(events, o) {
      var o :| o in w.outputs;
      LockingEndsLocked(locking, events);
    }
  }

  /** Until then the client keeps waiting, whatever happens: only its surfaces, the deadline, a removal or an unlock end it. */
  lemma WaitingEndsOnlyBy(w: World, e: Event)
    requires TimersLinear(w) && w.lock.WaitingForSurfaces? && Possible(w, e) && !Panics(w, e)
    ensures var w' := Step(w, e);
      || w'.lock == w.lock
      || (e.EUnlock? && w'.lock.Unlocked?)
      || ((e.ELockSurfaceCommit? || e.ERemoveOutput? || (e.ETimer? && e.t == w.lock.deadline)) &&
          w'.lock.IsLocked() && w'.lock.client == w.lock.client)
  {
    if e.ETimer? {
      assert TimerOwned(w, e.t, w.timers[e.t]);
    }
  }

  // Unlocking, monitors and outputs.

  /** An unlock request unlocks, lights the monitors, drops deadline and lock surfaces, and has every output redrawn. */
  lemma UnlockIsAnswered(w: World)
    ensures var w' := Step(w, EUnlock);
      && w'.lock.Unlocked? && w'.monitorsActive && w'.log == w.log && w'.outputs.Keys == w.outputs.Keys
      && (forall o | o in w'.outputs :: w'.outputs[o].redraw.Pending() && w'.outputs[o].lockSurface.None?)
      && w'.timers == if w.lock.WaitingForSurfaces? then w.timers - {w.lock.deadline} else w.timers
  {
  }

  /** Turning the monitors off and on again, or resuming the session, has every output redrawn. */
  lemma MonitorsComeBack(w: World)
    ensures var off := Step(w, EDeactivateMonitors);
      !off.monitorsActive && off.lock == w.lock &&
      forall o | o in w.outputs && w.monitorsActive :: o in off.outputs && off.outputs[o] == w.outputs[o].(onScreen := Blank)
    ensures !w.monitorsActive ==> AllDue(w, Step(w, EActivateMonitors))
    ensures w.monitorsActive ==> Step(w, EActivateMonitors) == w
    ensures AllDue(w, Step(w, EResumeSession))
  {
  }

  /** The monitors are on, and every output is as it was but for a redraw to come. */
  ghost predicate AllDue(w: World, w': World) {
    && w' == w.(monitorsActive := true, outputs := w'.outputs) && w'.outputs.Keys == w.outputs.Keys
    && forall o | o in w.outputs ::
         w'.outputs[o].redraw.Pending() && w'.outputs[o] == w.outputs[o].(redraw := w'.outputs[o].redraw)
  }

  /** A new output is blank with a redraw to come, needs no lock of its own, and moves others to be redrawn as well. */
  lemma NewOutputIsDrawn(w: World, moved: set<OutputId>)
    requires w.nextOutput !in w.outputs
    ensures var w' := Step(w, EAddOutput(moved)); var o := w.nextOutput;
      && w'.outputs.Keys == w.outputs.Keys + {o} && w'.lock == w.lock && w'.log == w.log
      && w'.outputs[o].redraw.Pending() && w'.outputs[o].onScreen == Blank && !w'.outputs[o].animating
      && (w'.outputs[o].lockRender == LockRenderState.Locked <==> w.lock.Locking? || w.lock.Locked?)
      && (forall p | p in w.outputs :: w'.outputs[p] == w.outputs[p].(redraw := w'.outputs[p].redraw))
      && (forall p | p in w.outputs :: if p in moved then w'.outputs[p].redraw.Pending() else w'.outputs[p] == w.outputs[p])
  {
  }

  /** The world without the output, its timer gone, the moved ones queued. */
  ghost predicate WithoutOutput(w: World, w': World, o: OutputId, moved: set<OutputId>)
    requires o in w.outputs
  {
    && w'.outputs.Keys == w.outputs.Keys - {o}
    && (w.outputs[o].redraw.HeldToken().Some? ==> w.outputs[o].redraw.HeldToken().value !in w'.timers)
    && (forall p | p in w'.outputs :: w'.outputs[p] == w.outputs[p].(redraw := w'.outputs[p].redraw))
    && (forall p | p in w'.outputs && p in moved :: w'.outputs[p].redraw.Pending())
  }

  ghost predicate OthersLocked(w: World, o: OutputId) {
    forall p | p in w.outputs && p != o :: w.outputs[p].lockRender == LockRenderState.Locked
  }

  ghost predicate OthersReady(w: World, o: OutputId, mapped: set<SurfaceId>) {
    forall p | p in w.outputs && p != o :: w.outputs[p].lockSurface.Some? && w.outputs[p].lockSurface.value in mapped
  }

  function Forgotten(w: World, o: OutputId, moved: set<OutputId>): World
    requires o in w.outputs
  {
    w.(outputs := QueueSome(w.outputs, moved - {o}) - {o},
       timers := WithoutToken(w.timers, w.outputs[o].redraw.HeldToken()))
  }

  lemma ForgottenIsWithout(w: World, o: OutputId, moved: set<OutputId>)
    requires o in w.outputs
    ensures WithoutOutput(w, Forgotten(w, o, moved), o, moved)
    ensures Forgotten(w, o, moved).outputs == map[] <==> w.outputs.Keys == {o}
  {
    var w1 := Forgotten(w, o, moved);
    assert w1.outputs.Keys == w.outputs.Keys - {o};
    assert forall p | p in w1.outputs :: w1.outputs[p] == QueueSome(w.outputs, moved - {o})[p];
    if w1.outputs == map[] {
      assert w.outputs.Keys - {o} == {};
    }
    if w.outputs.Keys == {o} {
      assert w1.outputs.Keys == {};
    }
  }

  lemma ForgottenAsksOthers(w: World, o: OutputId, moved: set<OutputId>, mapped: set<SurfaceId>)
    requires o in w.outputs
    ensures AllLocked(Forgotten(w, o, moved)) <==> OthersLocked(w, o)
    ensures SurfacesReady(Forgotten(w, o, moved), mapped) <==> OthersReady(w, o, mapped)
  {
    ForgottenIsWithout(w, o, moved);
    var w1 := Forgotten(w, o, moved);
    assert forall p | p in w.outputs && p != o :: p in w1.outputs;
  }

  lemma RecheckAnswers(w: World, mapped: set<SurfaceId>)
    ensures RecheckLock(w, mapped).lock ==
      if w.lock.Locking? && AllLocked(w) then LockState.Locked(w.lock.client)
      else if w.lock.WaitingForSurfaces? && SurfacesReady(w, mapped) then
        (if w.outputs == map[] then LockState.Locked(w.lock.client) else Locking(w.lock.client))
      else w.lock
  {
  }

  /** No output but for its redraw changes, no redraw is lost, and no timer appears. */
  ghost predicate OnlyMoreQueued(w: World, w': World) {
    && w'.outputs.Keys == w.outputs.Keys && w'.timers.Keys <= w.timers.Keys
    && forall p | p in w.outputs :: w'.outputs[p] == w.outputs[p].(redraw := w'.outputs[p].redraw) &&
         (w.outputs[p].redraw.Pending() ==> w'.outputs[p].redraw.Pending())
  }

  lemma ContinuingOnlyQueues(w: World)
    ensures OnlyMoreQueued(w, ContinueToLocking(w))
  {
  }

  lemma RecheckOnlyQueues(w: World, mapped: set<SurfaceId>)
    ensures OnlyMoreQueued(w, RecheckLock(w, mapped))
  {
    ContinuingOnlyQueues(w);
  }

  lemma QueueingAllOnlyQueues(w: World)
    ensures OnlyMoreQueued(w, QueueRedrawAll(w)) && forall p | p in w.outputs :: QueueRedrawAll(w).outputs[p].redraw.Pending()
  {
  }

  lemma WithoutLater(w: World, w1: World, w2: World, o: OutputId, moved: set<OutputId>)
    requires o in w.outputs && WithoutOutput(w, w1, o, moved) && OnlyMoreQueued(w1, w2)
    ensures WithoutOutput(w, w2, o, moved)
  {
  }

  lemma RecheckedIsWithout(w: World, o: OutputId, moved: set<OutputId>, mapped: set<SurfaceId>)
    requires o in w.outputs
    ensures WithoutOutput(w, RecheckLock(Forgotten(w, o, moved), mapped), o, moved)
  {
    ForgottenIsWithout(w, o, moved);
    RecheckOnlyQueues(Forgotten(w, o, moved), mapped);
    WithoutLater(w, Forgotten(w, o, moved), RecheckLock(Forgotten(w, o, moved), mapped), o, moved);
  }

  /** A removed output takes its timer along and leaves the others alone, but for the redraws of those that move. */
  lemma RemovalLeavesOthers(w: World, o: OutputId, moved: set<OutputId>, mapped: set<SurfaceId>, closedUi: bool)
    requires o in w.outputs
    ensures WithoutOutput(w, Step(w, ERemoveOutput(o, moved, mapped, closedUi)), o, moved)
    ensures closedUi ==>
      forall p | p in w.outputs && p != o :: Step(w, ERemoveOutput(o, moved, mapped, closedUi)).outputs[p].redraw.Pending()
  {
    RecheckedIsWithout(w, o, moved, mapped);
    var rechecked := RecheckLock(Forgotten(w, o, moved), mapped);
    if closedUi {
      QueueingAllOnlyQueues(rechecked);
      WithoutLater(w, rechecked, QueueRedrawAll(rechecked), o, moved);
      assert Step(w, ERemoveOutput(o, moved, mapped, closedUi)) == QueueRedrawAll(rechecked);
    } else {
      assert Step(w, ERemoveOutput(o, moved, mapped, closedUi)) == rechecked;
    }
  }

  /**
   * Removing an output may be what the lock was waiting for: while locking, when all others are locked; while
   * waiting for surfaces, when all others have theirs.
   */
  lemma RemovalSettlesLock(w: World, o: OutputId, moved: set<OutputId>, mapped: set<SurfaceId>, closedUi: bool)
    requires o in w.outputs
    ensures Step(w, ERemoveOutput(o, moved, mapped, closedUi)).lock ==
      if w.lock.Locking? && OthersLocked(w, o) then LockState.Locked(w.lock.client)
      else if w.lock.WaitingForSurfaces? && OthersReady(w, o, mapped) then
        (if w.outputs.Keys == {o} then LockState.Locked(w.lock.client) else Locking(w.lock.client))
      else w.lock
  {
    ForgottenIsWithout(w, o, moved);
    ForgottenAsksOthers(w, o, moved, mapped);
    RecheckAnswers(Forgotten(w, o, moved), mapped);
  }

  // What a redraw shows.

  /**
   * After the redraw of an output its screen shows the wanted frame exactly when it did before, or the backend
   * renders and queues it; otherwise it shows what it did. A new frame starts a refresh cycle and waits for its VBlank,
   * and a frame that is there already has a timer stand in for the VBlank.
   */
  lemma RedrawShows(w: World, o: OutputId, input: RenderInput)
    requires o in w.outputs && w.outputs[o].redraw.IsQueued()
    ensures
      var w' := Step(w, ERedraw(o, input));
      var wanted := if w.lock.IsLocked() then LockFrame(input.content) else SessionFrame(input.content);
      var before := w.outputs[o];
      var reaches := w.monitorsActive && input.reachable && input.rendered;
      && o in w'.outputs
      && w'.outputs[o].onScreen == (if reaches && input.frameQueued then wanted else before.onScreen)
      && (reaches && input.frameQueued && before.onScreen != wanted ==>
            w'.outputs[o].redraw == WaitingForVBlank(false) && SequenceAdvanced(o) in w'.log[|w.log|..] &&
            w'.outputs[o].sequence == (before.sequence + 1) % SEQUENCE_MODULUS)
      && (reaches && before.onScreen == wanted ==> w'.outputs[o].redraw.WaitingForEstimatedVBlank?)
      && (w.monitorsActive ==> w'.outputs[o].animating == input.animating)
  {
    DrawShows(w, o, input);
    var d := DrawOutput(w, o, input);
    SettleShows(d, o);
    SentShows(SettleLock(d, o), o, input.visible);
    var w' := Redraw(w, o, input);
    if d.log != w.log {
      assert w'.log[|w.log|..][0] == SequenceAdvanced(o);
    }
  }

  lemma SettleShows(d: World, o: OutputId)
    requires o in d.outputs
    ensures var s := SettleLock(d, o);
      && o in s.outputs && d.log <= s.log
      && s.outputs[o] == d.outputs[o].(redraw := s.outputs[o].redraw, lockSurface := s.outputs[o].lockSurface)
      && ((d.lock.Locking? ==> d.outputs[o].lockRender == LockRenderState.Locked) ==> s.outputs[o] == d.outputs[o])
  {
  }

  lemma SentShows(s: World, o: OutputId, visible: set<SurfaceId>)
    requires o in s.outputs
    ensures SendFrameCallbacks(s, o, visible).outputs == s.outputs && s.log <= SendFrameCallbacks(s, o, visible).log
  {
  }

  lemma DrawShows(w: World, o: OutputId, input: RenderInput)
    requires o in w.outputs && w.outputs[o].redraw.IsQueued()
    ensures
      var d := DrawOutput(w, o, input);
      var wanted := if w.lock.IsLocked() then LockFrame(input.content) else SessionFrame(input.content);
      var before := w.outputs[o];
      var reaches := w.monitorsActive && input.reachable && input.rendered;
      && o in d.outputs && d.lock == w.lock
      && d.outputs[o].onScreen == (if reaches && input.frameQueued then wanted else before.onScreen)
      && (reaches && input.frameQueued && before.onScreen != wanted ==>
            d.outputs[o].redraw == WaitingForVBlank(false) && d.log == w.log + [SequenceAdvanced(o)] &&
            d.outputs[o].sequence == (before.sequence + 1) % SEQUENCE_MODULUS)
      && (reaches && before.onScreen == wanted ==> d.outputs[o].redraw.WaitingForEstimatedVBlank?)
      && (w.lock.Locking? && reaches && (input.frameQueued || before.onScreen == wanted) ==>
            d.outputs[o].lockRender == LockRenderState.Locked)
      && (w.monitorsActive ==> d.outputs[o].animating == input.animating)
      && w.log <= d.log <= w.log + [SequenceAdvanced(o)]
  {
  }

  // Animations.

  /**
   * What a VBlank brings: a redraw if one is needed, the output's animations go on or the VBlank came unexpectedly;
   * otherwise the output rests and its clients get their callbacks.
   */
  lemma VBlankIsAnswered(w: World, o: OutputId, visible: set<SurfaceId>)
    requires o in w.outputs
    ensures
      var w' := Step(w, EVBlank(o, visible));
      var rests := !w.outputs[o].animating && w.outputs[o].redraw == WaitingForVBlank(false);
      && w'.outputs == w.outputs[o := w.outputs[o].(redraw := if rests then Idle else Queued)]
      && w'.lock == w.lock && w'.timers == w.timers
      && (if rests then |w'.log| == |w.log| + 1 && w'.log[|w.log|].FrameCallbacks? && w'.log[|w.log|].output == o
          else w'.log == w.log)
  {
  }

  /** The timer that stands in for a VBlank does the same, and counts as a refresh cycle. */
  lemma EstimatedVBlankIsAnswered(w: World, t: Token, visible: set<SurfaceId>)
    requires TimersLinear(w) && t in w.timers && w.timers[t].EstimatedVBlank?
    ensures
      var o := w.timers[t].output;
      && o in w.outputs && !Panics(w, ETimer(t, visible))
      && var w' := Step(w, ETimer(t, visible));
         var rests := !w.outputs[o].animating && w.outputs[o].redraw.WaitingForEstimatedVBlank?;
         && w'.timers == w.timers - {t} && w'.lock == w.lock
         && w'.outputs == w.outputs[o := w.outputs[o].(
              redraw := if rests then Idle else Queued, sequence := (w.outputs[o].sequence + 1) % SEQUENCE_MODULUS)]
         && |w'.log| == |w.log| + (if rests then 2 else 1) && w'.log[|w.log|] == SequenceAdvanced(o)
         && (rests ==> w'.log[|w.log| + 1].FrameCallbacks? && w'.log[|w.log| + 1].output == o)
  {
    assert TimerOwned(w, t, w.timers[t]);
  }

  /** An output with unfinished animations has a redraw to come, now or after the VBlank or timer it waits for. */
  ghost predicate AnimationsGoOn(w: World) {
    forall o | o in w.outputs && w.outputs[o].animating :: !w.outputs[o].redraw.Idle?
  }

  /** The redraw reaches the backend, or a timer still stands in for the next VBlank. */
  predicate GoesOn(w: World, e: Event) {
    e.ERedraw? && e.o in w.outputs ==>
      (w.monitorsActive && e.input.reachable) || w.outputs[e.o].redraw.HeldToken().Some? ||
      !(if w.monitorsActive then e.input.animating else w.outputs[e.o].animating)
  }

  lemma RedrawKeepsAnimationsIff(w: World, o: OutputId, input: RenderInput)
    requires AnimationsGoOn(w) && o in w.outputs && w.outputs[o].redraw.IsQueued()
    ensures !(w.lock.Locking? && !Redraw(w, o, input).lock.IsLocked()) ==>
      (AnimationsGoOn(Redraw(w, o, input)) <==> GoesOn(w, ERedraw(o, input)))
    ensures GoesOn(w, ERedraw(o, input)) ==> AnimationsGoOn(Redraw(w, o, input))
  {
    DrawTouchesOne(w, o, input);
    DrawRests(w, o, input);
    var d := DrawOutput(w, o, input);
    SettleRests(d, o);
  }

  lemma DrawRests(w: World, o: OutputId, input: RenderInput)
    requires o in w.outputs && w.outputs[o].redraw.IsQueued()
    ensures var d := DrawOutput(w, o, input);
      d.outputs[o].animating && d.outputs[o].redraw.Idle? <==> !GoesOn(w, ERedraw(o, input))
  {
  }

  lemma SettleRests(w: World, o: OutputId)
    requires o in w.outputs
    ensures var s := SettleLock(w, o);
      && s.outputs.Keys == w.outputs.Keys
      && (forall p | p in w.outputs :: s.outputs[p].animating == w.outputs[p].animating)
      && (forall p | p in w.outputs :: s.outputs[p].redraw.Idle? ==> w.outputs[p].redraw.Idle?)
      && ((w.lock.Locking? && s.lock.Unlocked?) || s.outputs == w.outputs)
  {
  }

  /** Every output with animations going on had them before, and none comes to rest. */
  ghost predicate NoneRests(w: World, w': World) {
    forall o | o in w'.outputs && w'.outputs[o].animating ::
      o in w.outputs && w.outputs[o].animating && (w'.outputs[o].redraw.Idle? ==> w.outputs[o].redraw.Idle?)
  }

  lemma RemovalRestsNone(w: World, o: OutputId, moved: set<OutputId>, mapped: set<SurfaceId>, closedUi: bool)
    requires o in w.outputs
    ensures NoneRests(w, RemoveOutput(w, o, moved, mapped, closedUi))
  {
    var w1 := Forgotten(w, o, moved);
    assert NoneRests(w, w1);
    ContinuingRestsNone(w1);
    assert NoneRests(w1, RecheckLock(w1, mapped));
  }

  lemma ContinuingRestsNone(w: World)
    ensures NoneRests(w, ContinueToLocking(w))
  {
  }

  lemma UnlockRestsNone(w: World)
    ensures NoneRests(w, ActivateMonitors(Unlock(w)))
  {
  }

  lemma CommitRestsNone(w: World, o: OutputId, mapped: set<SurfaceId>)
    requires o in w.outputs
    ensures NoneRests(w, LockSurfaceCommit(w, o, mapped))
  {
    ContinuingRestsNone(w);
  }

  lemma LockEventsRestNone(w: World, e: Event)
    requires e.ELock? || e.ENewLockSurface?
    ensures NoneRests(w, Step(w, e))
  {
  }

  lemma OthersRestNone(w: World, e: Event)
    requires Possible(w, e) && !Panics(w, e)
    requires e.EQueueRedraw? || e.EQueueRedrawAll? || e.EAddOutput? || e.EDeactivateMonitors? || e.EActivateMonitors? ||
             e.EResumeSession?
    ensures NoneRests(w, Step(w, e))
  {
  }

  lemma TimerKeepsAnimations(w: World, t: Token, visible: set<SurfaceId>)
    requires AnimationsGoOn(w) && Possible(w, ETimer(t, visible)) && !Panics(w, ETimer(t, visible))
    ensures AnimationsGoOn(OnTimer(w, t, visible))
  {
    ContinuingRestsNone(w.(timers := w.timers - {t}));
  }

  lemma StepKeepsAnimations(w: World, e: Event)
    requires AnimationsGoOn(w) && Possible(w, e) && !Panics(w, e) && GoesOn(w, e)
    ensures AnimationsGoOn(Step(w, e))
  {
    match e
    case ERedraw(o, input) => RedrawKeepsAnimationsIff(w, o, input);
    case EVBlank(o, visible) =>
      if o in w.outputs {
        VBlankIsAnswered(w, o, visible);
      }
    case ETimer(t, visible) => TimerKeepsAnimations(w, t, visible);
    case ERemoveOutput(o, moved, mapped, closedUi) => RemovalRestsNone(w, o, moved, mapped, closedUi);
    case EUnlock => UnlockRestsNone(w);
    case ELockSurfaceCommit(o, mapped) => CommitRestsNone(w, o, mapped);
    case _ =>
      if e.ELock? || e.ENewLockSurface? {
        LockEventsRestNone(w, e);
      } else {
        OthersRestNone(w, e);
      }
  }

  ghost predicate Unbroken(w: World, events: seq<Event>)
    requires Runs(w, events)
    decreases |events|
  {
    events == [] || (GoesOn(w, events[0]) && Unbroken(Step(w, events[0]), events[1..]))
  }

  /**
   * Over every run whose redraws of animating outputs reach the backend, or leave a timer, an output whose last
   * render left animations unfinished is never at rest.
   */
  lemma {:induction false} AnimationsKeepGoing(w: World, events: seq<Event>)
    requires AnimationsGoOn(w) && Runs(w, events) && Unbroken(w, events)
    ensures AnimationsGoOn(Run(w, events))
    decreases |events|
  {
    if events != [] {
      StepKeepsAnimations(w, events[0]);
      AnimationsKeepGoing(Step(w, events[0]), events[1..]);
    }
  }
}
