/**
 * Per-output redraw, VBlank and session-lock protocol.
 *
 * A `World` is the part of the compositor state the protocol reads and writes: the tracked outputs,
 * the session-lock state, the event-loop timers, and the frame-callback bookkeeping. Every entry
 * point of the protocol is a function from a world to the next one; `Step` joins them, and a run is
 * any sequence of events. What the kernel, the clients and the renderer do is carried by the events.
 */
module RedrawModel {
  import opened Prelude

  type OutputId = nat
  type Token = nat
  type LockId = nat

  /** Frame-callback sequences are 32-bit counters that wrap. */
  const SEQUENCE_MODULUS: nat := 0x1_0000_0000

  /** What the DRM compositor of an output last handed to the kernel. */
  datatype Frame = Blank | SessionFrame(content: nat) | LockFrame(content: nat)

  datatype RedrawState =
    | Idle
    | Queued
    | WaitingForVBlank(redrawNeeded: bool)
    | WaitingForEstimatedVBlank(token: Token)
    | WaitingForEstimatedVBlankAndQueued(token: Token)
  {
    function QueueRedraw(): RedrawState {
      match this
      case Idle => Queued
      case WaitingForEstimatedVBlank(t) => WaitingForEstimatedVBlankAndQueued(t)
      case Queued => this
      case WaitingForEstimatedVBlankAndQueued(_) => this
      case WaitingForVBlank(_) => WaitingForVBlank(true)
    }

    /** The redraw loop will pick this output up. */
    predicate IsQueued() {
      Queued? || WaitingForEstimatedVBlankAndQueued?
    }

    /** A redraw will happen: now, or right after the VBlank being waited for. */
    predicate Pending() {
      IsQueued() || (WaitingForVBlank? && redrawNeeded)
    }

    function HeldToken(): Option<Token> {
      match this
      case WaitingForEstimatedVBlank(t) => Some(t)
      case WaitingForEstimatedVBlankAndQueued(t) => Some(t)
      case _ => None
    }
  }

  datatype LockRenderState = Unlocked | Locked

  datatype LockState =
    | Unlocked
    | WaitingForSurfaces(client: LockId, deadline: Token)
    | Locking(client: LockId)
    | Locked(client: LockId)
  {
    predicate IsLocked() {
      Locking? || Locked?
    }
  }

  datatype OutputState = OutputState(
    redraw: RedrawState,
    lockRender: LockRenderState,
    lockSurface: Option<SurfaceId>,
    animating: bool,
    sequence: nat,
    onScreen: Frame)

  datatype Timer = EstimatedVBlank(output: OutputId) | LockDeadline

  /** What an observer of the compositor sees, in order. */
  datatype Entry =
    | SequenceAdvanced(output: OutputId)
    | FrameCallbacks(output: OutputId, granted: set<SurfaceId>)
    | LockConfirmed(client: LockId, screens: map<OutputId, Frame>)

  datatype World = World(
    outputs: map<OutputId, OutputState>,
    lock: LockState,
    monitorsActive: bool,
    timers: map<Token, Timer>,
    nextToken: Token,
    nextOutput: OutputId,
    lastSentAt: map<SurfaceId, (OutputId, nat)>,
    log: seq<Entry>)

  function Initial(): World {
    World(map[], LockState.Unlocked, true, map[], 0, 0, map[], [])
  }

  // Queueing redraws.

  function QueueSome(outputs: map<OutputId, OutputState>, which: set<OutputId>): map<OutputId, OutputState> {
    map o | o in outputs ::
      if o in which then outputs[o].(redraw := outputs[o].redraw.QueueRedraw()) else outputs[o]
  }

  function QueueRedraw(w: World, o: OutputId): World
    requires o in w.outputs
  {
    w.(outputs := w.outputs[o := w.outputs[o].(redraw := w.outputs[o].redraw.QueueRedraw())])
  }

  function QueueRedrawAll(w: World): World {
    w.(outputs := QueueSome(w.outputs, w.outputs.Keys))
  }

  // Frame callbacks.

  /** The surfaces among `visible` that get a frame callback on `o` now: those not yet served in this refresh cycle. */
  function Granted(w: World, o: OutputId, visible: set<SurfaceId>): set<SurfaceId>
    requires o in w.outputs
  {
    set s | s in visible && !(s in w.lastSentAt && w.lastSentAt[s] == (o, w.outputs[o].sequence))
  }

  function SendFrameCallbacks(w: World, o: OutputId, visible: set<SurfaceId>): World
    requires o in w.outputs
  {
    var granted := Granted(w, o, visible);
    w.(lastSentAt := w.lastSentAt + (map s | s in granted :: (o, w.outputs[o].sequence)),
       log := w.log + [FrameCallbacks(o, granted)])
  }

  function NextSequence(sequence: nat): nat {
    (sequence + 1) % SEQUENCE_MODULUS
  }

  // Locking and unlocking.

  function Screens(w: World): map<OutputId, Frame> {
    map o | o in w.outputs :: w.outputs[o].onScreen
  }

  predicate AllLocked(w: World) {
    forall o | o in w.outputs :: w.outputs[o].lockRender == LockRenderState.Locked
  }

  /** Report the lock to the client (the `locked` event of `ext_session_lock_v1`). */
  function Confirm(w: World, client: LockId): World {
    w.(lock := LockState.Locked(client), log := w.log + [LockConfirmed(client, Screens(w))])
  }

  function Lock(w: World, client: LockId, holderAlive: bool): World {
    match w.lock
    case WaitingForSurfaces(_, _) => w
    case Locking(_) => w
    case Locked(_) => if holderAlive then w else Confirm(w, client)
    case Unlocked =>
      if w.outputs == map[] then
        Confirm(w, client)
      else
        w.(lock := WaitingForSurfaces(client, w.nextToken),
           timers := w.timers[w.nextToken := LockDeadline],
           nextToken := w.nextToken + 1)
  }

  function ContinueToLocking(w: World): World {
    match w.lock
    case WaitingForSurfaces(client, deadline) =>
      var w1 := w.(timers := w.timers - {deadline});
      if w.outputs == map[] then Confirm(w1, client) else QueueRedrawAll(w1.(lock := Locking(client)))
    case _ => w
  }

  predicate SurfacesReady(w: World, mapped: set<SurfaceId>) {
    forall o | o in w.outputs :: w.outputs[o].lockSurface.Some? && w.outputs[o].lockSurface.value in mapped
  }

  function MaybeContinueToLocking(w: World, mapped: set<SurfaceId>): World {
    if w.lock.WaitingForSurfaces? && SurfacesReady(w, mapped) then ContinueToLocking(w) else w
  }

  function DropLockSurfaces(outputs: map<OutputId, OutputState>): map<OutputId, OutputState> {
    map o | o in outputs :: outputs[o].(lockSurface := None)
  }

  function Unlock(w: World): World {
    var timers := if w.lock.WaitingForSurfaces? then w.timers - {w.lock.deadline} else w.timers;
    QueueRedrawAll(w.(lock := LockState.Unlocked, timers := timers, outputs := DropLockSurfaces(w.outputs)))
  }

  function NewLockSurface(w: World, o: OutputId, surface: SurfaceId, client: LockId): World {
    if w.lock.Unlocked? || w.lock.client != client || o !in w.outputs then w
    else w.(outputs := w.outputs[o := w.outputs[o].(lockSurface := Some(surface))])
  }

  function LockSurfaceCommit(w: World, o: OutputId, mapped: set<SurfaceId>): World
    requires o in w.outputs
  {
    if w.lock.WaitingForSurfaces? then MaybeContinueToLocking(w, mapped) else QueueRedraw(w, o)
  }

  // Monitors and outputs.

  function ActivateMonitors(w: World): World {
    if w.monitorsActive then w else QueueRedrawAll(w.(monitorsActive := true))
  }

  /** Powering the monitors off clears every framebuffer. */
  function DeactivateMonitors(w: World): World {
    if !w.monitorsActive then w
    else w.(monitorsActive := false, outputs := map o | o in w.outputs :: w.outputs[o].(onScreen := Blank))
  }

  function ResumeSession(w: World): World {
    QueueRedrawAll(w.(monitorsActive := true))
  }

  /** `moved` are the outputs that repositioning puts elsewhere; the new one always counts as moved. */
  function AddOutput(w: World, moved: set<OutputId>): World {
    var lockRender := if w.lock.IsLocked() then LockRenderState.Locked else LockRenderState.Unlocked;
    var added := OutputState(Idle, lockRender, None, false, 0, Blank);
    w.(outputs := QueueSome(w.outputs[w.nextOutput := added], moved + {w.nextOutput}),
       nextOutput := w.nextOutput + 1)
  }

  function WithoutToken(timers: map<Token, Timer>, held: Option<Token>): map<Token, Timer> {
    if held.Some? then timers - {held.value} else timers
  }

  /** After an output is gone, the lock may no longer have anything to wait for. */
  function RecheckLock(w: World, mapped: set<SurfaceId>): World {
    if w.lock.Locking? then
      if AllLocked(w) then Confirm(w, w.lock.client) else w
    else
      MaybeContinueToLocking(w, mapped)
  }

  function RemoveOutput(w: World, o: OutputId, moved: set<OutputId>, mapped: set<SurfaceId>, closedUi: bool): World
    requires o in w.outputs
  {
    var w1 := w.(outputs := QueueSome(w.outputs, moved - {o}) - {o},
                 timers := WithoutToken(w.timers, w.outputs[o].redraw.HeldToken()));
    var w2 := RecheckLock(w1, mapped);
    if closedUi then QueueRedrawAll(w2) else w2
  }

  // Rendering.

  datatype RenderResult = Submitted | NoDamage | Skipped

  /**
   * What the backend meets during one redraw: whether the device, surface and renderer are there and
   * active; the content to show; whether rendering and queueing the frame succeed; whether animations
   * remain; and the surfaces whose primary scanout output this is.
   */
  datatype RenderInput = RenderInput(
    reachable: bool, content: nat, rendered: bool, frameQueued: bool, animating: bool, visible: set<SurfaceId>)

  function FrameFor(lock: LockState, content: nat): Frame {
    if lock.IsLocked() then LockFrame(content) else SessionFrame(content)
  }

  function QueueEstimatedVBlankTimer(w: World, o: OutputId): World
    requires o in w.outputs && w.outputs[o].redraw.IsQueued()
  {
    var st := w.outputs[o];
    match st.redraw
    case WaitingForEstimatedVBlankAndQueued(t) =>
      w.(outputs := w.outputs[o := st.(redraw := WaitingForEstimatedVBlank(t))])
    case _ =>
      w.(outputs := w.outputs[o := st.(redraw := WaitingForEstimatedVBlank(w.nextToken))],
         timers := w.timers[w.nextToken := EstimatedVBlank(o)],
         nextToken := w.nextToken + 1)
  }

  /** A frame has damage exactly when it differs from what the output last showed. */
  function Render(w: World, o: OutputId, input: RenderInput): (World, RenderResult)
    requires o in w.outputs && w.outputs[o].redraw.IsQueued()
  {
    var st := w.outputs[o];
    var frame := FrameFor(w.lock, input.content);
    if !input.reachable then (w, Skipped)
    else if input.rendered && st.onScreen != frame && input.frameQueued then
      var shown := st.(redraw := WaitingForVBlank(false), sequence := NextSequence(st.sequence), onScreen := frame);
      (w.(outputs := w.outputs[o := shown],
          timers := WithoutToken(w.timers, st.redraw.HeldToken()),
          log := w.log + [SequenceAdvanced(o)]),
       Submitted)
    else
      (QueueEstimatedVBlankTimer(w, o), if input.rendered && st.onScreen == frame then NoDamage else Skipped)
  }

  function AfterSkippedRender(redraw: RedrawState): RedrawState {
    var held := redraw.HeldToken();
    if held.Some? then WaitingForEstimatedVBlank(held.value) else Idle
  }

  /** The part of a redraw that draws: the outcome's effect on the output, before the lock is considered. */
  function DrawOutput(w: World, o: OutputId, input: RenderInput): World
    requires o in w.outputs && w.outputs[o].redraw.IsQueued()
  {
    var (w1, result) :=
      if w.monitorsActive then
        Render(w.(outputs := w.outputs[o := w.outputs[o].(animating := input.animating)]), o, input)
      else (w, Skipped);
    var st := w1.outputs[o];
    var redraw := if result == Skipped then AfterSkippedRender(st.redraw) else st.redraw;
    var lockRender :=
      if result != Skipped || !w.monitorsActive then
        (if w1.lock.IsLocked() then LockRenderState.Locked else LockRenderState.Unlocked)
      else st.lockRender;
    w1.(outputs := w1.outputs[o := st.(redraw := redraw, lockRender := lockRender)])
  }

  /** While locking, a drawn output either fails the lock, completes it, or leaves it waiting for the others. */
  function SettleLock(w: World, o: OutputId): World
    requires o in w.outputs
  {
    if !w.lock.Locking? then w
    else if w.outputs[o].lockRender == LockRenderState.Unlocked then Unlock(w)
    else if AllLocked(w) then Confirm(w, w.lock.client)
    else w
  }

  function Redraw(w: World, o: OutputId, input: RenderInput): World
    requires o in w.outputs && w.outputs[o].redraw.IsQueued()
  {
    SendFrameCallbacks(SettleLock(DrawOutput(w, o, input), o), o, input.visible)
  }

  // VBlanks and timers.

  function AfterVBlank(w: World, o: OutputId, redrawNeeded: bool, visible: set<SurfaceId>): World
    requires o in w.outputs
  {
    var w1 := w.(outputs := w.outputs[o := w.outputs[o].(redraw := Idle)]);
    if redrawNeeded || w.outputs[o].animating then QueueRedraw(w1, o) else SendFrameCallbacks(w1, o, visible)
  }

  /** A VBlank in any state but the expected one is logged and answered with a redraw. */
  function OnVBlank(w: World, o: OutputId, visible: set<SurfaceId>): World {
    if o !in w.outputs then w
    else
      var redraw := w.outputs[o].redraw;
      AfterVBlank(w, o, if redraw.WaitingForVBlank? then redraw.redrawNeeded else true, visible)
  }

  /** The estimated-VBlank timer aborts the process unless its output is waiting for some estimated VBlank. */
  predicate TimerPanics(w: World, o: OutputId) {
    o in w.outputs && w.outputs[o].redraw.HeldToken().None?
  }

  function OnEstimatedVBlankTimer(w: World, o: OutputId, visible: set<SurfaceId>): World
    requires !TimerPanics(w, o)
  {
    if o !in w.outputs then w
    else
      var st := w.outputs[o];
      var w1 := w.(outputs := w.outputs[o := st.(sequence := NextSequence(st.sequence))],
                   log := w.log + [SequenceAdvanced(o)]);
      if st.redraw.WaitingForEstimatedVBlankAndQueued? then
        w1.(outputs := w1.outputs[o := w1.outputs[o].(redraw := Queued)])
      else
        AfterVBlank(w1, o, false, visible)
  }

  /** The event loop drops a timer once its callback has run. */
  function OnTimer(w: World, t: Token, visible: set<SurfaceId>): World
    requires t in w.timers
    requires w.timers[t].EstimatedVBlank? ==> !TimerPanics(w, w.timers[t].output)
  {
    var w1 := w.(timers := w.timers - {t});
    match w.timers[t]
    case LockDeadline => ContinueToLocking(w1)
    case EstimatedVBlank(o) => OnEstimatedVBlankTimer(w1, o, visible)
  }

  // Events and runs.

  datatype Event =
    | EQueueRedraw(o: OutputId)
    | EQueueRedrawAll
    | ERedraw(o: OutputId, input: RenderInput)
    | EVBlank(o: OutputId, visible: set<SurfaceId>)
    | ETimer(t: Token, visible: set<SurfaceId>)
    | ELock(client: LockId, holderAlive: bool)
    | EUnlock
    | ENewLockSurface(o: OutputId, surface: SurfaceId, client: LockId)
    | ELockSurfaceCommit(o: OutputId, mapped: set<SurfaceId>)
    | EAddOutput(moved: set<OutputId>)
    | ERemoveOutput(o: OutputId, moved: set<OutputId>, mapped: set<SurfaceId>, closedUi: bool)
    | EDeactivateMonitors
    | EActivateMonitors
    | EResumeSession

  /** The event can reach the compositor in this world. */
  predicate Possible(w: World, e: Event) {
    match e
    case EQueueRedraw(o) => o in w.outputs
    case ERedraw(o, _) => o in w.outputs && w.outputs[o].redraw.IsQueued()
    case ETimer(t, _) => t in w.timers
    case ELockSurfaceCommit(o, _) => o in w.outputs
    case ERemoveOutput(o, _, _, _) => o in w.outputs
    case _ => true
  }

  /** The event makes the compositor take an `unreachable!()` arm. */
  predicate Panics(w: World, e: Event)
    requires Possible(w, e)
  {
    e.ETimer? && w.timers[e.t].EstimatedVBlank? && TimerPanics(w, w.timers[e.t].output)
  }

  function Step(w: World, e: Event): World
    requires Possible(w, e) && !Panics(w, e)
  {
    match e
    case EQueueRedraw(o) => QueueRedraw(w, o)
    case EQueueRedrawAll => QueueRedrawAll(w)
    case ERedraw(o, input) => Redraw(w, o, input)
    case EVBlank(o, visible) => OnVBlank(w, o, visible)
    case ETimer(t, visible) => OnTimer(w, t, visible)
    case ELock(client, alive) => Lock(w, client, alive)
    case EUnlock => ActivateMonitors(Unlock(w))
    case ENewLockSurface(o, surface, client) => NewLockSurface(w, o, surface, client)
    case ELockSurfaceCommit(o, mapped) => LockSurfaceCommit(w, o, mapped)
    case EAddOutput(moved) => AddOutput(w, moved)
    case ERemoveOutput(o, moved, mapped, closedUi) => RemoveOutput(w, o, moved, mapped, closedUi)
    case EDeactivateMonitors => DeactivateMonitors(w)
    case EActivateMonitors => ActivateMonitors(w)
    case EResumeSession => ResumeSession(w)
  }

  /** Every event of `events` is possible when it comes, and none aborts the process. */
  predicate Runs(w: World, events: seq<Event>)
    decreases |events|
  {
    events == [] || (Possible(w, events[0]) && !Panics(w, events[0]) && Runs(Step(w, events[0]), events[1..]))
  }

  function Run(w: World, events: seq<Event>): World
    requires Runs(w, events)
    decreases |events|
  {
    if events == [] then w else Run(Step(w, events[0]), events[1..])
  }
}
