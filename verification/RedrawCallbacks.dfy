/**
 * Frame-callback throttling: a client is told to draw at most once per refresh cycle, yet no refresh cycle
 * passes without its callbacks being sent or a redraw being due that will send them.
 */
module RedrawCallbacks {
  import opened Prelude
  import opened RedrawModel

  function Advances(log: seq<Entry>, o: OutputId): nat {
    if log == [] then 0
    else Advances(log[..|log| - 1], o) + (if log[|log| - 1] == SequenceAdvanced(o) then 1 else 0)
  }

  function Grants(log: seq<Entry>, o: OutputId, s: SurfaceId): nat {
    if log == [] then 0
    else
      var last := log[|log| - 1];
      Grants(log[..|log| - 1], o, s) + (if last.FrameCallbacks? && last.output == o && s in last.granted then 1 else 0)
  }

  /** The last refresh cycle of `o` has started, but its callbacks have not been sent. */
  function Owed(log: seq<Entry>, o: OutputId): bool {
    if log == [] then false
    else
      var last := log[|log| - 1];
      if last == SequenceAdvanced(o) then true
      else if last.FrameCallbacks? && last.output == o then false
      else Owed(log[..|log| - 1], o)
  }

  lemma OwedAppend(log: seq<Entry>, entry: Entry, o: OutputId)
    ensures Owed(log + [entry], o) <==>
      entry == SequenceAdvanced(o) || (!(entry.FrameCallbacks? && entry.output == o) && Owed(log, o))
  {
    assert (log + [entry])[..|log|] == log;
  }

  // No refresh cycle is lost.

  ghost predicate CallbacksDue(w: World) {
    forall o | o in w.outputs && Owed(w.log, o) :: w.outputs[o].redraw.Pending()
  }

  /** Nothing but confirmations is logged, and no redraw is lost. */
  ghost predicate Quiet(w: World, w': World) {
    && (w'.log == w.log || exists client, screens :: w'.log == w.log + [LockConfirmed(client, screens)])
    && (forall o | o in w'.outputs ::
          (o in w.outputs && (w.outputs[o].redraw.Pending() ==> w'.outputs[o].redraw.Pending()))
          || w'.outputs[o].redraw.Pending())
  }

  lemma QuietKeepsDue(w: World, w': World)
    requires CallbacksDue(w) && Quiet(w, w')
    ensures CallbacksDue(w')
  {
    forall o | o in w'.outputs && Owed(w'.log, o) ensures w'.outputs[o].redraw.Pending() {
      if w'.log != w.log {
        OwedAppend(w.log, w'.log[|w.log|], o);
      }
    }
  }

  lemma RecheckIsQuiet(w: World, mapped: set<SurfaceId>)
    ensures Quiet(w, RecheckLock(w, mapped))
  {
  }

  lemma ForgettingIsQuiet(w: World, o: OutputId, moved: set<OutputId>)
    requires o in w.outputs
    ensures var w1 := w.(outputs := QueueSome(w.outputs, moved) - {o},
                         timers := WithoutToken(w.timers, w.outputs[o].redraw.HeldToken()));
      Quiet(w, w1) && w1.log == w.log
  {
  }

  lemma QuietTwice(w: World, w1: World, w2: World)
    requires Quiet(w, w1) && Quiet(w1, w2)
    requires w1.log == w.log || w2.log == w1.log
    ensures Quiet(w, w2)
  {
  }

  lemma QueueingAllIsQuiet(w: World)
    ensures Quiet(w, QueueRedrawAll(w)) && QueueRedrawAll(w).log == w.log
  {
  }

  lemma RemovalIsQuiet(w: World, o: OutputId, moved: set<OutputId>, mapped: set<SurfaceId>, closedUi: bool)
    requires o in w.outputs
    ensures Quiet(w, RemoveOutput(w, o, moved, mapped, closedUi))
  {
    var w1 := w.(outputs := QueueSome(w.outputs, moved - {o}) - {o},
                 timers := WithoutToken(w.timers, w.outputs[o].redraw.HeldToken()));
    var w2 := RecheckLock(w1, mapped);
    ForgettingIsQuiet(w, o, moved - {o});
    RecheckIsQuiet(w1, mapped);
    QuietTwice(w, w1, w2);
    QueueingAllIsQuiet(w2);
    QuietTwice(w, w2, QueueRedrawAll(w2));
  }

  /** As `CallbacksDue`, leaving output `o` out. */
  ghost predicate OthersDue(w: World, o: OutputId) {
    forall p | p in w.outputs && p != o && Owed(w.log, p) :: w.outputs[p].redraw.Pending()
  }

  lemma LoggingForOneKeepsOthers(w: World, w': World, o: OutputId, entry: Entry)
    requires OthersDue(w, o)
    requires w'.log == w.log || w'.log == w.log + [entry]
    requires entry == SequenceAdvanced(o) || (entry.FrameCallbacks? && entry.output == o) || entry.LockConfirmed?
    requires w'.outputs.Keys == w.outputs.Keys
    requires forall p | p in w.outputs && p != o :: w.outputs[p].redraw.Pending() ==> w'.outputs[p].redraw.Pending()
    ensures OthersDue(w', o)
  {
    forall p | p in w'.outputs && p != o && Owed(w'.log, p) ensures w'.outputs[p].redraw.Pending() {
      OwedAppend(w.log, entry, p);
    }
  }

  lemma SettleKeepsOthersDue(w: World, o: OutputId)
    requires OthersDue(w, o) && o in w.outputs
    ensures OthersDue(SettleLock(w, o), o) && SettleLock(w, o).outputs.Keys == w.outputs.Keys
  {
    var s := SettleLock(w, o);
    var entry := if s.log == w.log then SequenceAdvanced(o) else s.log[|w.log|];
    LoggingForOneKeepsOthers(w, s, o, entry);
  }

  /** Sending the callbacks of an output pays for the refresh cycle it had open. */
  lemma CallbacksPayOne(w: World, o: OutputId, visible: set<SurfaceId>)
    requires OthersDue(w, o) && o in w.outputs
    ensures var w' := SendFrameCallbacks(w, o, visible);
      CallbacksDue(w') && !Owed(w'.log, o)
  {
    var w' := SendFrameCallbacks(w, o, visible);
    var entry := FrameCallbacks(o, Granted(w, o, visible));
    OwedAppend(w.log, entry, o);
    LoggingForOneKeepsOthers(w, w', o, entry);
  }

  /** A redraw always ends by sending the callbacks of its output, whatever it logged before. */
  lemma RedrawPaysOwn(w: World, o: OutputId, input: RenderInput)
    requires CallbacksDue(w) && o in w.outputs && w.outputs[o].redraw.IsQueued()
    ensures CallbacksDue(Redraw(w, o, input)) && !Owed(Redraw(w, o, input).log, o)
  {
    var d := DrawOutput(w, o, input);
    LoggingForOneKeepsOthers(w, d, o, SequenceAdvanced(o));
    SettleKeepsOthersDue(d, o);
    CallbacksPayOne(SettleLock(d, o), o, input.visible);
  }

  lemma AfterVBlankKeepsDue(w: World, o: OutputId, redrawNeeded: bool, visible: set<SurfaceId>)
    requires OthersDue(w, o) && o in w.outputs
    ensures CallbacksDue(AfterVBlank(w, o, redrawNeeded, visible))
  {
    var w1 := w.(outputs := w.outputs[o := w.outputs[o].(redraw := Idle)]);
    assert OthersDue(w1, o);
    if !redrawNeeded && !w.outputs[o].animating {
      CallbacksPayOne(w1, o, visible);
    }
  }

  lemma VBlankKeepsDue(w: World, o: OutputId, visible: set<SurfaceId>)
    requires CallbacksDue(w)
    ensures CallbacksDue(OnVBlank(w, o, visible))
  {
    if o in w.outputs {
      var redraw := w.outputs[o].redraw;
      AfterVBlankKeepsDue(w, o, if redraw.WaitingForVBlank? then redraw.redrawNeeded else true, visible);
    }
  }

  lemma EstimatedVBlankKeepsDue(w: World, o: OutputId, visible: set<SurfaceId>)
    requires CallbacksDue(w) && !TimerPanics(w, o)
    ensures CallbacksDue(OnEstimatedVBlankTimer(w, o, visible))
  {
    if o in w.outputs {
      var st := w.outputs[o];
      var w1 := w.(outputs := w.outputs[o := st.(sequence := NextSequence(st.sequence))],
                   log := w.log + [SequenceAdvanced(o)]);
      LoggingForOneKeepsOthers(w, w1, o, SequenceAdvanced(o));
      if !st.redraw.WaitingForEstimatedVBlankAndQueued? {
        AfterVBlankKeepsDue(w1, o, false, visible);
      }
    }
  }

  lemma ContinueIsQuiet(w: World)
    ensures Quiet(w, ContinueToLocking(w))
  {
  }

  lemma UnlockIsQuiet(w: World)
    ensures Quiet(w, ActivateMonitors(Unlock(w)))
  {
  }

  lemma QueueingIsQuiet(w: World, e: Event)
    requires Possible(w, e) && !Panics(w, e)
    requires e.EQueueRedraw? || e.EQueueRedrawAll? || e.EActivateMonitors? || e.EDeactivateMonitors? || e.EResumeSession?
    ensures Quiet(w, Step(w, e))
  {
  }

  lemma LockIsQuiet(w: World, client: LockId, alive: bool)
    ensures Quiet(w, Lock(w, client, alive))
  {
  }

  lemma CommitIsQuiet(w: World, o: OutputId, mapped: set<SurfaceId>)
    requires o in w.outputs
    ensures Quiet(w, LockSurfaceCommit(w, o, mapped))
  {
    ContinueIsQuiet(w);
  }

  lemma AddIsQuiet(w: World, moved: set<OutputId>)
    ensures Quiet(w, AddOutput(w, moved))
  {
  }

  lemma LockEventsAreQuiet(w: World, e: Event)
    requires Possible(w, e) && !Panics(w, e)
    requires e.ELock? || e.ENewLockSurface? || e.ELockSurfaceCommit? || e.EAddOutput?
    ensures Quiet(w, Step(w, e))
  {
    match e
    case ELock(client, alive) => LockIsQuiet(w, client, alive);
    case ELockSurfaceCommit(o, mapped) => CommitIsQuiet(w, o, mapped);
    case EAddOutput(moved) => AddIsQuiet(w, moved);
    case ENewLockSurface(_, _, _) => {}
  }

  lemma StepKeepsDue(w: World, e: Event)
    requires CallbacksDue(w) && Possible(w, e) && !Panics(w, e)
    ensures CallbacksDue(Step(w, e))
  {
    match e
    case ERedraw(o, input) => RedrawPaysOwn(w, o, input);
    case EVBlank(o, visible) => VBlankKeepsDue(w, o, visible);
    case ETimer(t, visible) =>
      var w1 := w.(timers := w.timers - {t});
      assert CallbacksDue(w1);
      if w.timers[t].EstimatedVBlank? {
        EstimatedVBlankKeepsDue(w1, w.timers[t].output, visible);
      } else {
        ContinueIsQuiet(w1);
        QuietKeepsDue(w1, ContinueToLocking(w1));
      }
    case ERemoveOutput(o, moved, mapped, closedUi) =>
      RemovalIsQuiet(w, o, moved, mapped, closedUi);
      QuietKeepsDue(w, Step(w, e));
    case EUnlock =>
      UnlockIsQuiet(w);
      QuietKeepsDue(w, Step(w, e));
    case ELock(_, _) =>
      LockEventsAreQuiet(w, e);
      QuietKeepsDue(w, Step(w, e));
    case ENewLockSurface(_, _, _) =>
      LockEventsAreQuiet(w, e);
      QuietKeepsDue(w, Step(w, e));
    case ELockSurfaceCommit(_, _) =>
      LockEventsAreQuiet(w, e);
      QuietKeepsDue(w, Step(w, e));
    case EAddOutput(_) =>
      LockEventsAreQuiet(w, e);
      QuietKeepsDue(w, Step(w, e));
    case _ =>
      QueueingIsQuiet(w, e);
      QuietKeepsDue(w, Step(w, e));
  }

  /** Over every run, an output whose refresh cycle advanced without callbacks has a redraw due that will send them. */
  lemma {:induction false} RunKeepsDue(w: World, events: seq<Event>)
    requires CallbacksDue(w) && Runs(w, events)
    ensures CallbacksDue(Run(w, events))
    decreases |events|
  {
    if events != [] {
      StepKeepsDue(w, events[0]);
      RunKeepsDue(Step(w, events[0]), events[1..]);
    }
  }

  // What one event does for the callbacks: it may start a refresh cycle, change other things, and send callbacks.

  /** A refresh cycle of `p` starts; nothing else that the throttling depends on changes. */
  ghost predicate Advanced(w: World, w': World, p: OutputId) {
    && p in w.outputs && w'.outputs.Keys == w.outputs.Keys
    && w'.lastSentAt == w.lastSentAt && w'.nextOutput == w.nextOutput
    && w'.log == w.log + [SequenceAdvanced(p)]
    && w'.outputs[p].sequence == (w.outputs[p].sequence + 1) % SEQUENCE_MODULUS
    && (forall q | q in w.outputs && q != p :: w'.outputs[q].sequence == w.outputs[q].sequence)
  }

  /** Nothing that the throttling depends on changes; a new output may appear, and outputs go. */
  ghost predicate Neutral(w: World, w': World) {
    && w'.lastSentAt == w.lastSentAt && w.nextOutput <= w'.nextOutput
    && (w'.log == w.log || exists client, screens :: w'.log == w.log + [LockConfirmed(client, screens)])
    && (forall o | o in w'.outputs ::
          || (o in w.outputs && w'.outputs[o].sequence == w.outputs[o].sequence)
          || (o == w.nextOutput < w'.nextOutput && w'.outputs[o].sequence == 0))
  }

  /** The parts of one event's effect, for the output `p` that it is about if it starts or serves a refresh cycle. */
  datatype Parts = Parts(p: OutputId, advances: bool, advanced: World, changed: World, visible: Option<set<SurfaceId>>)

  ghost predicate SplitInto(w: World, w': World, parts: Parts) {
    && (if parts.advances then Advanced(w, parts.advanced, parts.p) else parts.advanced == w)
    && Neutral(parts.advanced, parts.changed)
    && (if parts.visible.Some? then
          parts.p in parts.changed.outputs && w' == SendFrameCallbacks(parts.changed, parts.p, parts.visible.value)
        else w' == parts.changed)
  }

  lemma SettleIsNeutral(w: World, p: OutputId)
    requires p in w.outputs
    ensures Neutral(w, SettleLock(w, p))
  {
  }

  lemma ContinueIsNeutral(w: World)
    ensures Neutral(w, ContinueToLocking(w))
  {
  }

  lemma DrawAdvancesOrNot(w: World, p: OutputId, input: RenderInput)
    requires p in w.outputs && w.outputs[p].redraw.IsQueued()
    ensures var d := DrawOutput(w, p, input);
      p in d.outputs && if d.log == w.log then Neutral(w, d) else Advanced(w, d, p)
  {
  }

  lemma QuietThenNeutral(w: World, w1: World, w2: World)
    requires Neutral(w, w1) && Neutral(w1, w2) && w1.log == w.log && w1.nextOutput == w.nextOutput
    ensures Neutral(w, w2)
  {
  }

  lemma RedrawSplits(w: World, p: OutputId, input: RenderInput) returns (parts: Parts)
    requires p in w.outputs && w.outputs[p].redraw.IsQueued()
    ensures SplitInto(w, Redraw(w, p, input), parts)
  {
    var d := DrawOutput(w, p, input);
    var s := SettleLock(d, p);
    DrawAdvancesOrNot(w, p, input);
    DrawKeepsIds(w, p, input);
    SettleIsNeutral(d, p);
    if d.log == w.log {
      QuietThenNeutral(w, d, s);
      return Parts(p, false, w, s, Some(input.visible));
    }
    return Parts(p, true, d, s, Some(input.visible));
  }

  lemma DrawKeepsIds(w: World, p: OutputId, input: RenderInput)
    requires p in w.outputs && w.outputs[p].redraw.IsQueued()
    ensures DrawOutput(w, p, input).nextOutput == w.nextOutput
  {
  }

  lemma AfterVBlankSplits(w: World, p: OutputId, redrawNeeded: bool, visible: set<SurfaceId>)
      returns (changed: World, sends: bool)
    requires p in w.outputs
    ensures Neutral(w, changed) && p in changed.outputs
    ensures AfterVBlank(w, p, redrawNeeded, visible) == if sends then SendFrameCallbacks(changed, p, visible) else changed
  {
    sends := !redrawNeeded && !w.outputs[p].animating;
    changed := w.(outputs := w.outputs[p := w.outputs[p].(redraw := Idle)]);
    if !sends {
      changed := QueueRedraw(changed, p);
    }
  }

  lemma EstimatedVBlankSplits(w: World, p: OutputId, visible: set<SurfaceId>) returns (parts: Parts)
    requires !TimerPanics(w, p)
    ensures SplitInto(w, OnEstimatedVBlankTimer(w, p, visible), parts)
  {
    var w' := OnEstimatedVBlankTimer(w, p, visible);
    if p !in w.outputs {
      return Parts(p, false, w, w, None);
    }
    var st := w.outputs[p];
    var w1 := w.(outputs := w.outputs[p := st.(sequence := NextSequence(st.sequence))], log := w.log + [SequenceAdvanced(p)]);
    if st.redraw.WaitingForEstimatedVBlankAndQueued? {
      return Parts(p, true, w1, w', None);
    }
    var changed, sends := AfterVBlankSplits(w1, p, false, visible);
    return Parts(p, true, w1, changed, if sends then Some(visible) else None);
  }

  lemma RemovalIsNeutral(w: World, o: OutputId, moved: set<OutputId>, mapped: set<SurfaceId>, closedUi: bool)
    requires o in w.outputs
    ensures Neutral(w, RemoveOutput(w, o, moved, mapped, closedUi))
  {
    var w1 := w.(outputs := QueueSome(w.outputs, moved - {o}) - {o},
                 timers := WithoutToken(w.timers, w.outputs[o].redraw.HeldToken()));
    ContinueIsNeutral(w1);
    assert Neutral(w1, RecheckLock(w1, mapped));
  }

  lemma LockEventIsNeutral(w: World, e: Event)
    requires Possible(w, e) && !Panics(w, e)
    requires e.ELock? || e.EUnlock? || e.ENewLockSurface? || e.ELockSurfaceCommit?
    ensures Neutral(w, Step(w, e))
  {
    if e.ELockSurfaceCommit? {
      ContinueIsNeutral(w);
    }
  }

  lemma QueueingIsNeutral(w: World, e: Event)
    requires Possible(w, e) && !Panics(w, e)
    requires e.EQueueRedraw? || e.EQueueRedrawAll? || e.EActivateMonitors? || e.EDeactivateMonitors? ||
             e.EResumeSession? || e.EAddOutput?
    ensures Neutral(w, Step(w, e))
  {
  }

  lemma TimerSplits(w: World, t: Token, visible: set<SurfaceId>) returns (parts: Parts)
    requires Possible(w, ETimer(t, visible)) && !Panics(w, ETimer(t, visible))
    ensures SplitInto(w, OnTimer(w, t, visible), parts)
  {
    var w1 := w.(timers := w.timers - {t});
    if w.timers[t].EstimatedVBlank? {
      parts := EstimatedVBlankSplits(w1, w.timers[t].output, visible);
      if !parts.advances {
        parts := parts.(advanced := w);
      }
    } else {
      ContinueIsNeutral(w1);
      parts := Parts(0, false, w, OnTimer(w, t, visible), None);
    }
  }

  lemma StepSplits(w: World, e: Event) returns (parts: Parts)
    requires Possible(w, e) && !Panics(w, e)
    ensures SplitInto(w, Step(w, e), parts)
  {
    parts := Parts(0, false, w, Step(w, e), None);
    match e
    case ERedraw(p, input) => parts := RedrawSplits(w, p, input);
    case EVBlank(p, visible) =>
      if p in w.outputs {
        var redraw := w.outputs[p].redraw;
        var changed, sends := AfterVBlankSplits(w, p, if redraw.WaitingForVBlank? then redraw.redrawNeeded else true, visible);
        parts := Parts(p, false, w, changed, if sends then Some(visible) else None);
      }
    case ETimer(t, visible) => parts := TimerSplits(w, t, visible);
    case ERemoveOutput(o, moved, mapped, closedUi) => RemovalIsNeutral(w, o, moved, mapped, closedUi);
    case _ =>
      if e.ELock? || e.EUnlock? || e.ENewLockSurface? || e.ELockSurfaceCommit? {
        LockEventIsNeutral(w, e);
      } else {
        QueueingIsNeutral(w, e);
      }
  }

  lemma LogGrows(w: World, e: Event)
    requires Possible(w, e) && !Panics(w, e)
    ensures w.log <= Step(w, e).log
  {
    var parts := StepSplits(w, e);
    assert w.log <= parts.advanced.log <= parts.changed.log <= Step(w, e).log;
  }

  lemma {:induction false} LogOnlyGrows(w: World, events: seq<Event>)
    requires Runs(w, events)
    ensures w.log <= Run(w, events).log
    decreases |events|
  {
    if events != [] {
      LogGrows(w, events[0]);
      LogOnlyGrows(Step(w, events[0]), events[1..]);
    }
  }

  // At most one callback per refresh cycle.

  /** `s` has been served in the current refresh cycle of `o`. */
  ghost predicate Served(w: World, o: OutputId, s: SurfaceId) {
    s in w.lastSentAt && w.lastSentAt[s].0 == o && (o in w.outputs ==> w.lastSentAt[s].1 == w.outputs[o].sequence)
  }

  /** Up to an offset fixed at the start of a run, grants are paid for by advances, save one in the current cycle. */
  ghost predicate GrantsBounded(w: World, o: OutputId, s: SurfaceId, offset: int) {
    Grants(w.log, o, s) <= Advances(w.log, o) + (if Served(w, o, s) then 1 else 0) + offset
  }

  /** Output ids are never reused, so a surface cannot have been served by an output that is yet to come. */
  ghost predicate IdsNumbered(w: World) {
    && (forall o | o in w.outputs :: o < w.nextOutput)
    && (forall s | s in w.lastSentAt :: w.lastSentAt[s].0 < w.nextOutput)
  }

  /** From entry `n` on, `s` gets callbacks on no output but `o`. */
  ghost predicate StaysOn(log: seq<Entry>, n: nat, o: OutputId, s: SurfaceId) {
    forall i | n <= i < |log| && log[i].FrameCallbacks? && s in log[i].granted :: log[i].output == o
  }

  lemma CountsAppend(log: seq<Entry>, entry: Entry, o: OutputId, s: SurfaceId)
    ensures Advances(log + [entry], o) == Advances(log, o) + (if entry == SequenceAdvanced(o) then 1 else 0)
    ensures Grants(log + [entry], o, s) ==
      Grants(log, o, s) + (if entry.FrameCallbacks? && entry.output == o && s in entry.granted then 1 else 0)
  {
    assert (log + [entry])[..|log|] == log;
  }

  lemma NeutralKeepsBound(w: World, w': World, o: OutputId, s: SurfaceId, offset: int)
    requires IdsNumbered(w) && GrantsBounded(w, o, s, offset) && Neutral(w, w')
    ensures IdsNumbered(w') && GrantsBounded(w', o, s, offset)
  {
    if w'.log != w.log {
      CountsAppend(w.log, w'.log[|w.log|], o, s);
    }
    assert Served(w, o, s) ==> Served(w', o, s);
  }

  lemma AdvanceKeepsBound(w: World, w': World, p: OutputId, o: OutputId, s: SurfaceId, offset: int)
    requires IdsNumbered(w) && GrantsBounded(w, o, s, offset) && Advanced(w, w', p)
    ensures IdsNumbered(w') && GrantsBounded(w', o, s, offset)
  {
    CountsAppend(w.log, SequenceAdvanced(p), o, s);
    if p != o {
      assert Served(w, o, s) == Served(w', o, s);
    }
  }

  lemma SendingKeepsBound(w: World, p: OutputId, visible: set<SurfaceId>, o: OutputId, s: SurfaceId, offset: int)
    requires IdsNumbered(w) && GrantsBounded(w, o, s, offset) && p in w.outputs
    requires StaysOn(SendFrameCallbacks(w, p, visible).log, |w.log|, o, s)
    ensures var w' := SendFrameCallbacks(w, p, visible);
      IdsNumbered(w') && GrantsBounded(w', o, s, offset)
  {
    var w' := SendFrameCallbacks(w, p, visible);
    assert w'.log[|w.log|] == FrameCallbacks(p, Granted(w, p, visible));
    CountsAppend(w.log, FrameCallbacks(p, Granted(w, p, visible)), o, s);
    if s in Granted(w, p, visible) {
      assert Served(w', o, s) && !Served(w, o, s);
    } else {
      assert Served(w', o, s) == Served(w, o, s);
    }
  }

  lemma StepKeepsBound(w: World, e: Event, o: OutputId, s: SurfaceId, offset: int)
    requires IdsNumbered(w) && GrantsBounded(w, o, s, offset) && Possible(w, e) && !Panics(w, e)
    requires StaysOn(Step(w, e).log, |w.log|, o, s)
    ensures IdsNumbered(Step(w, e)) && GrantsBounded(Step(w, e), o, s, offset)
  {
    var parts := StepSplits(w, e);
    if parts.advances {
      AdvanceKeepsBound(w, parts.advanced, parts.p, o, s, offset);
    }
    NeutralKeepsBound(parts.advanced, parts.changed, o, s, offset);
    if parts.visible.Some? {
      SendingKeepsBound(parts.changed, parts.p, parts.visible.value, o, s, offset);
    }
  }

  /**
   * Throttling, over any run: a surface that gets its callbacks from one output only is granted at most one
   * more callback than that output's refresh cycle advances, wrap-around of the sequence included.
   */
  lemma {:induction false} RunKeepsBound(w: World, events: seq<Event>, o: OutputId, s: SurfaceId, offset: int)
    requires IdsNumbered(w) && GrantsBounded(w, o, s, offset) && Runs(w, events)
    requires StaysOn(Run(w, events).log, |w.log|, o, s)
    ensures GrantsBounded(Run(w, events), o, s, offset)
    decreases |events|
  {
    if events != [] {
      var w1 := Step(w, events[0]);
      LogGrows(w, events[0]);
      LogOnlyGrows(w1, events[1..]);
      var log := Run(w, events).log;
      assert forall i | |w.log| <= i < |w1.log| :: w1.log[i] == log[i];
      StepKeepsBound(w, events[0], o, s, offset);
      RunKeepsBound(w1, events[1..], o, s, offset);
    }
  }

  /** The bound for the grants and advances of one run, from any reachable world. */
  lemma CallbacksThrottled(w: World, events: seq<Event>, o: OutputId, s: SurfaceId)
    requires IdsNumbered(w) && Runs(w, events)
    requires StaysOn(Run(w, events).log, |w.log|, o, s)
    ensures Grants(Run(w, events).log, o, s) - Grants(w.log, o, s) <= Advances(Run(w, events).log, o) - Advances(w.log, o) + 1
  {
    RunKeepsBound(w, events, o, s, Grants(w.log, o, s) - Advances(w.log, o));
  }

  // Which surfaces are passed over.

  /** The output that granted `s` its last callbacks, and how many refresh cycles it has started since. */
  function SinceGrant(log: seq<Entry>, s: SurfaceId): Option<(OutputId, nat)> {
    if log == [] then None
    else
      var last, rest := log[|log| - 1], SinceGrant(log[..|log| - 1], s);
      if last.FrameCallbacks? && s in last.granted then Some((last.output, 0))
      else if rest.Some? && last == SequenceAdvanced(rest.value.0) then Some((rest.value.0, rest.value.1 + 1))
      else rest
  }

  lemma SinceAppend(log: seq<Entry>, entry: Entry, s: SurfaceId)
    ensures SinceGrant(log + [entry], s) ==
      var rest := SinceGrant(log, s);
      if entry.FrameCallbacks? && s in entry.granted then Some((entry.output, 0))
      else if rest.Some? && entry == SequenceAdvanced(rest.value.0) then Some((rest.value.0, rest.value.1 + 1))
      else rest
  {
    assert (log + [entry])[..|log|] == log;
  }

  /** What is recorded of `s` is the output of its last grant and the sequence that output then had. */
  ghost predicate Recorded(w: World, s: SurfaceId) {
    var since := SinceGrant(w.log, s);
    && (s in w.lastSentAt <==> since.Some?)
    && (since.Some? ==>
          var (p, cycles) := since.value;
          && w.lastSentAt[s].0 == p && w.lastSentAt[s].1 < SEQUENCE_MODULUS
          && (p in w.outputs ==> w.outputs[p].sequence == (w.lastSentAt[s].1 + cycles) % SEQUENCE_MODULUS))
  }

  ghost predicate SequencesInRange(w: World) {
    forall o | o in w.outputs :: w.outputs[o].sequence < SEQUENCE_MODULUS
  }

  ghost predicate RecordsKept(w: World, s: SurfaceId) {
    IdsNumbered(w) && SequencesInRange(w) && Recorded(w, s)
  }

  lemma AtLeast(m: int, d: int)
    requires m > 0 && d >= 1
    ensures m * d >= m
  {
    assert m * d - m == m * (d - 1);
  }

  lemma RemainderIs(x: int, q: int, r: int, m: int)
    requires x == m * q + r && 0 <= r < m
    ensures x % m == r
  {
    var d := q - x / m;
    assert m * d == m * q - m * (x / m);
    assert m * d == x % m - r;
    if d >= 1 {
      AtLeast(m, d);
    } else if d <= -1 {
      AtLeast(m, -d);
    }
  }

  lemma NextInRing(a: nat, k: nat, m: nat)
    requires m > 0
    ensures ((a + k) % m + 1) % m == (a + (k + 1)) % m
  {
    var q, r := (a + k) / m, (a + k) % m;
    if r + 1 < m {
      RemainderIs(r + 1, 0, r + 1, m);
      RemainderIs(a + k + 1, q, r + 1, m);
    } else {
      RemainderIs(r + 1, 1, 0, m);
      assert m * (q + 1) == m * q + m;
      RemainderIs(a + k + 1, q + 1, 0, m);
    }
  }

  lemma NeutralKeepsRecords(w: World, w': World, s: SurfaceId)
    requires RecordsKept(w, s) && Neutral(w, w')
    ensures RecordsKept(w', s)
  {
    if w'.log != w.log {
      SinceAppend(w.log, w'.log[|w.log|], s);
    }
  }

  lemma AdvanceKeepsRecords(w: World, w': World, p: OutputId, s: SurfaceId)
    requires RecordsKept(w, s) && Advanced(w, w', p)
    ensures RecordsKept(w', s)
  {
    SinceAppend(w.log, SequenceAdvanced(p), s);
    var since := SinceGrant(w.log, s);
    if since.Some? && since.value.0 == p {
      NextInRing(w.lastSentAt[s].1, since.value.1, SEQUENCE_MODULUS);
    }
  }

  lemma SendingKeepsRecords(w: World, p: OutputId, visible: set<SurfaceId>, s: SurfaceId)
    requires RecordsKept(w, s) && p in w.outputs
    ensures RecordsKept(SendFrameCallbacks(w, p, visible), s)
  {
    SinceAppend(w.log, FrameCallbacks(p, Granted(w, p, visible)), s);
  }

  lemma StepKeepsRecords(w: World, e: Event, s: SurfaceId)
    requires RecordsKept(w, s) && Possible(w, e) && !Panics(w, e)
    ensures RecordsKept(Step(w, e), s)
  {
    var parts := StepSplits(w, e);
    if parts.advances {
      AdvanceKeepsRecords(w, parts.advanced, parts.p, s);
    }
    NeutralKeepsRecords(parts.advanced, parts.changed, s);
    if parts.visible.Some? {
      SendingKeepsRecords(parts.changed, parts.p, parts.visible.value, s);
    }
  }

  lemma {:induction false} RunKeepsRecords(w: World, events: seq<Event>, s: SurfaceId)
    requires RecordsKept(w, s) && Runs(w, events)
    ensures RecordsKept(Run(w, events), s)
    decreases |events|
  {
    if events != [] {
      StepKeepsRecords(w, events[0], s);
      RunKeepsRecords(Step(w, events[0]), events[1..], s);
    }
  }

  lemma FullTurn(a: nat, k: nat, m: nat)
    requires a < m
    ensures (a + k) % m == a <==> k % m == 0
  {
    var q, r := k / m, k % m;
    if a + r < m {
      RemainderIs(a + k, q, a + r, m);
    } else {
      assert m * (q + 1) == m * q + m;
      RemainderIs(a + k, q + 1, a + r - m, m);
    }
  }

  lemma RecordDecides(w: World, o: OutputId, visible: set<SurfaceId>, s: SurfaceId)
    requires RecordsKept(w, s) && o in w.outputs && s in visible
    ensures
      var since := SinceGrant(w.log, s);
      s !in Granted(w, o, visible) <==> since.Some? && since.value.0 == o && since.value.1 % SEQUENCE_MODULUS == 0
  {
    var since := SinceGrant(w.log, s);
    if since.Some? && since.value.0 == o {
      FullTurn(w.lastSentAt[s].1, since.value.1, SEQUENCE_MODULUS);
    }
  }

  /**
   * Over every run, a round of callbacks passes over a visible surface exactly when its last grant came from this
   * output too and no refresh cycle has started there since, or as many as make the 32-bit sequence come round.
   */
  lemma PassedOverIff(events: seq<Event>, o: OutputId, visible: set<SurfaceId>, s: SurfaceId)
    requires Runs(Initial(), events) && o in Run(Initial(), events).outputs && s in visible
    ensures
      var w := Run(Initial(), events);
      var sent := SendFrameCallbacks(w, o, visible);
      var since := SinceGrant(w.log, s);
      && |sent.log| == |w.log| + 1 && sent.log[|w.log|].FrameCallbacks? && sent.log[|w.log|].output == o
      && sent.log[|w.log|].granted <= visible
      && (s !in sent.log[|w.log|].granted <==>
          since.Some? && since.value.0 == o && since.value.1 % SEQUENCE_MODULUS == 0)
  {
    RunKeepsRecords(Initial(), events, s);
    RecordDecides(Run(Initial(), events), o, visible, s);
  }
}
