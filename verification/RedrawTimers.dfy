/**
 * Timer linearity: an estimated-VBlank timer is live exactly while its output's redraw state holds its
 * token, and the lock-deadline timer exactly while the session waits for lock surfaces. As long as that
 * holds no `unreachable!()` arm is taken. A VBlank that arrives while an output holds a token breaks it.
 */
module RedrawTimers {
  import opened Prelude
  import opened RedrawModel

  /** Who should own a live timer. */
  ghost predicate TimerOwned(w: World, t: Token, timer: Timer) {
    match timer
    case EstimatedVBlank(o) => o in w.outputs && w.outputs[o].redraw.HeldToken() == Some(t)
    case LockDeadline => w.lock.WaitingForSurfaces? && w.lock.deadline == t
  }

  ghost predicate TimersLinear(w: World) {
    && (forall t | t in w.timers :: t < w.nextToken && TimerOwned(w, t, w.timers[t]))
    && (forall o | o in w.outputs && w.outputs[o].redraw.HeldToken().Some? ::
          var t := w.outputs[o].redraw.HeldToken().value; t in w.timers && w.timers[t] == EstimatedVBlank(o))
    && (w.lock.WaitingForSurfaces? ==> w.lock.deadline in w.timers && w.timers[w.lock.deadline] == LockDeadline)
    && (forall o | o in w.outputs :: o < w.nextOutput)
  }

  /** Worlds that agree on everything the timers depend on. */
  ghost predicate SameTokens(w: World, w': World) {
    && w'.timers == w.timers && w'.nextToken == w.nextToken && w'.nextOutput == w.nextOutput
    && w'.outputs.Keys == w.outputs.Keys
    && (forall o | o in w.outputs :: w'.outputs[o].redraw.HeldToken() == w.outputs[o].redraw.HeldToken())
    && (w.lock.WaitingForSurfaces? || w'.lock.WaitingForSurfaces? ==> w'.lock == w.lock)
  }

  lemma SameTokensKeepLinearity(w: World, w': World)
    requires TimersLinear(w) && SameTokens(w, w')
    ensures TimersLinear(w')
  {
    forall t | t in w'.timers ensures t < w'.nextToken && TimerOwned(w', t, w'.timers[t]) {
      assert TimerOwned(w, t, w.timers[t]);
    }
  }

  lemma QueueingKeepsTokens(w: World, which: set<OutputId>)
    ensures SameTokens(w, w.(outputs := QueueSome(w.outputs, which)))
  {
  }

  lemma ContinueKeepsLinearity(w: World)
    requires TimersLinear(w)
    ensures TimersLinear(ContinueToLocking(w))
  {
    if w.lock.WaitingForSurfaces? {
      var w1 := w.(timers := w.timers - {w.lock.deadline}, lock := Locking(w.lock.client));
      assert TimersLinear(w1) by {
        forall t | t in w1.timers ensures t < w1.nextToken && TimerOwned(w1, t, w1.timers[t]) {
          assert TimerOwned(w, t, w.timers[t]);
        }
      }
      if w.outputs != map[] {
        QueueingKeepsTokens(w1, w1.outputs.Keys);
      }
      SameTokensKeepLinearity(w1, ContinueToLocking(w));
    }
  }

  lemma UnlockKeepsLinearity(w: World)
    requires TimersLinear(w)
    ensures TimersLinear(Unlock(w))
  {
    var timers := if w.lock.WaitingForSurfaces? then w.timers - {w.lock.deadline} else w.timers;
    var w1 := w.(lock := LockState.Unlocked, timers := timers, outputs := DropLockSurfaces(w.outputs));
    assert TimersLinear(w1) by {
      forall t | t in w1.timers ensures t < w1.nextToken && TimerOwned(w1, t, w1.timers[t]) {
        assert TimerOwned(w, t, w.timers[t]);
      }
    }
    QueueingKeepsTokens(w1, w1.outputs.Keys);
    SameTokensKeepLinearity(w1, Unlock(w));
  }

  lemma ArmingKeepsLinearity(w: World, client: LockId)
    requires TimersLinear(w) && w.lock.Unlocked?
    ensures TimersLinear(w.(lock := WaitingForSurfaces(client, w.nextToken),
                            timers := w.timers[w.nextToken := LockDeadline], nextToken := w.nextToken + 1))
  {
    var w' := w.(lock := WaitingForSurfaces(client, w.nextToken),
                 timers := w.timers[w.nextToken := LockDeadline], nextToken := w.nextToken + 1);
    forall t | t in w'.timers ensures t < w'.nextToken && TimerOwned(w', t, w'.timers[t]) {
      if t in w.timers {
        assert TimerOwned(w, t, w.timers[t]);
      }
    }
  }

  lemma LockRequestKeepsLinearity(w: World, client: LockId, holderAlive: bool)
    requires TimersLinear(w)
    ensures TimersLinear(Lock(w, client, holderAlive))
  {
    if w.lock.Unlocked? && w.outputs != map[] {
      ArmingKeepsLinearity(w, client);
    } else {
      SameTokensKeepLinearity(w, Lock(w, client, holderAlive));
    }
  }

  lemma AddOutputKeepsLinearity(w: World, moved: set<OutputId>)
    requires TimersLinear(w)
    ensures TimersLinear(AddOutput(w, moved))
  {
    var w' := AddOutput(w, moved);
    forall t | t in w'.timers ensures t < w'.nextToken && TimerOwned(w', t, w'.timers[t]) {
      assert TimerOwned(w, t, w.timers[t]);
    }
  }

  lemma DroppingKeepsLinearity(w: World, o: OutputId, moved: set<OutputId>)
    requires TimersLinear(w) && o in w.outputs
    ensures TimersLinear(w.(outputs := QueueSome(w.outputs, moved) - {o},
                            timers := WithoutToken(w.timers, w.outputs[o].redraw.HeldToken())))
  {
    var w' := w.(outputs := QueueSome(w.outputs, moved) - {o},
                 timers := WithoutToken(w.timers, w.outputs[o].redraw.HeldToken()));
    forall t | t in w'.timers ensures t < w'.nextToken && TimerOwned(w', t, w'.timers[t]) {
      assert TimerOwned(w, t, w.timers[t]);
    }
  }

  lemma RecheckKeepsLinearity(w: World, mapped: set<SurfaceId>)
    requires TimersLinear(w)
    ensures TimersLinear(RecheckLock(w, mapped))
  {
    if w.lock.Locking? {
      SameTokensKeepLinearity(w, RecheckLock(w, mapped));
    } else {
      ContinueKeepsLinearity(w);
    }
  }

  lemma RemoveOutputKeepsLinearity(w: World, o: OutputId, moved: set<OutputId>, mapped: set<SurfaceId>, closedUi: bool)
    requires TimersLinear(w) && o in w.outputs
    ensures TimersLinear(RemoveOutput(w, o, moved, mapped, closedUi))
  {
    DroppingKeepsLinearity(w, o, moved - {o});
    var w1 := w.(outputs := QueueSome(w.outputs, moved - {o}) - {o},
                 timers := WithoutToken(w.timers, w.outputs[o].redraw.HeldToken()));
    RecheckKeepsLinearity(w1, mapped);
    var w2 := RecheckLock(w1, mapped);
    if closedUi {
      QueueingKeepsTokens(w2, w2.outputs.Keys);
      SameTokensKeepLinearity(w2, QueueRedrawAll(w2));
    }
  }

  /** Nothing changes but output `o` and the timer it held; its new token, if any, is freshly made. */
  ghost predicate OnlyTouches(w: World, w': World, o: OutputId)
    requires o in w.outputs
  {
    var held := w.outputs[o].redraw.HeldToken();
    && w'.outputs.Keys == w.outputs.Keys
    && (forall p | p in w.outputs && p != o :: w'.outputs[p].redraw == w.outputs[p].redraw)
    && w'.lock == w.lock && w'.nextOutput == w.nextOutput
    && var held' := w'.outputs[o].redraw.HeldToken();
       || (held'.None? && w'.timers == WithoutToken(w.timers, held) && w'.nextToken == w.nextToken)
       || (held' == held && w'.timers == w.timers && w'.nextToken == w.nextToken)
       || (held.None? && held' == Some(w.nextToken) && w'.nextToken == w.nextToken + 1 &&
           w'.timers == w.timers[w.nextToken := EstimatedVBlank(o)])
  }

  lemma OnlyTouchesKeepsLinearity(w: World, w': World, o: OutputId)
    requires TimersLinear(w) && o in w.outputs && OnlyTouches(w, w', o)
    ensures TimersLinear(w')
  {
    forall t | t in w'.timers ensures t < w'.nextToken && TimerOwned(w', t, w'.timers[t]) {
      if t in w.timers {
        assert TimerOwned(w, t, w.timers[t]);
      }
    }
  }

  lemma DrawKeepsLinearity(w: World, o: OutputId, input: RenderInput)
    requires TimersLinear(w) && o in w.outputs && w.outputs[o].redraw.IsQueued()
    ensures TimersLinear(DrawOutput(w, o, input))
  {
    OnlyTouchesKeepsLinearity(w, DrawOutput(w, o, input), o);
  }

  lemma SettlingKeepsLinearity(w: World, o: OutputId)
    requires TimersLinear(w) && o in w.outputs
    ensures TimersLinear(SettleLock(w, o))
  {
    UnlockKeepsLinearity(w);
    if SettleLock(w, o) != Unlock(w) {
      SameTokensKeepLinearity(w, SettleLock(w, o));
    }
  }

  lemma RedrawKeepsLinearity(w: World, o: OutputId, input: RenderInput)
    requires TimersLinear(w) && o in w.outputs && w.outputs[o].redraw.IsQueued()
    ensures TimersLinear(Redraw(w, o, input))
  {
    DrawKeepsLinearity(w, o, input);
    SettlingKeepsLinearity(DrawOutput(w, o, input), o);
    SameTokensKeepLinearity(SettleLock(DrawOutput(w, o, input), o), Redraw(w, o, input));
  }

  /** A VBlank keeps the timers in order exactly when its output held no token. */
  lemma VBlankKeepsLinearityIff(w: World, o: OutputId, visible: set<SurfaceId>)
    requires TimersLinear(w)
    ensures TimersLinear(OnVBlank(w, o, visible)) <==> o !in w.outputs || w.outputs[o].redraw.HeldToken().None?
  {
    if o in w.outputs {
      var w' := OnVBlank(w, o, visible);
      var held := w.outputs[o].redraw.HeldToken();
      if held.None? {
        OnlyTouchesKeepsLinearity(w, w', o);
      } else {
        assert held.value in w'.timers && !TimerOwned(w', held.value, w'.timers[held.value]);
      }
    }
  }

  /** Such a VBlank leaves a timer behind that aborts the compositor if it fires next. */
  lemma RogueVBlankThenTimerPanics(w: World, o: OutputId, visible: set<SurfaceId>)
    requires TimersLinear(w) && o in w.outputs && w.outputs[o].redraw.HeldToken().Some?
    ensures var e := ETimer(w.outputs[o].redraw.HeldToken().value, visible);
      Possible(OnVBlank(w, o, visible), e) && Panics(OnVBlank(w, o, visible), e)
  {
  }

  lemma RunOfTwo(w: World, a: Event, b: Event)
    requires Possible(w, a) && !Panics(w, a)
    requires Possible(Step(w, a), b) && !Panics(Step(w, a), b)
    ensures Runs(w, [a, b]) && Run(w, [a, b]) == Step(Step(w, a), b)
  {
    assert [a, b][1..] == [b] && [b][1..] == [];
    assert Runs(Step(w, a), [b]) && Run(Step(w, a), [b]) == Step(Step(w, a), b);
  }

  /** It takes three events from start-up: an output comes, its first redraw fails, and a VBlank arrives nonetheless. */
  lemma RoguePanicIsReachable()
    ensures exists events: seq<Event>, t: Token ::
      (Runs(Initial(), events) && var w := Run(Initial(), events);
       Possible(w, ETimer(t, {})) && Panics(w, ETimer(t, {})))
  {
    var failing := RenderInput(true, 0, false, false, false, {});
    var add, redraw, rogue := EAddOutput({}), ERedraw(0, failing), EVBlank(0, {});
    var w1 := Step(Initial(), add);
    assert w1.outputs[0].redraw == Queued;
    var w2 := Step(w1, redraw);
    assert w2.outputs[0].redraw == WaitingForEstimatedVBlank(0) && w2.timers == map[0 := EstimatedVBlank(0)];
    var w3 := Step(w2, rogue);
    assert [add, redraw, rogue][1..] == [redraw, rogue];
    RunOfTwo(w1, redraw, rogue);
    assert Runs(Initial(), [add, redraw, rogue]) && Run(Initial(), [add, redraw, rogue]) == w3;
    assert Panics(w3, ETimer(0, {}));
  }

  lemma EstimatedVBlankKeepsLinearity(w: World, t: Token, o: OutputId, visible: set<SurfaceId>)
    requires TimersLinear(w) && t in w.timers && w.timers[t] == EstimatedVBlank(o)
    ensures !TimerPanics(w, o) && TimersLinear(OnTimer(w, t, visible))
  {
    assert TimerOwned(w, t, w.timers[t]);
    OnlyTouchesKeepsLinearity(w, OnTimer(w, t, visible), o);
  }

  /** The deadline only ever fires in the state it was armed for, so the "wrong lock state" arm is dead. */
  lemma DeadlineFiresWhileWaiting(w: World, t: Token, visible: set<SurfaceId>)
    requires TimersLinear(w) && t in w.timers && w.timers[t] == LockDeadline
    ensures w.lock == WaitingForSurfaces(w.lock.client, t)
    ensures TimersLinear(OnTimer(w, t, visible))
    ensures OnTimer(w, t, visible).lock.IsLocked()
  {
    assert TimerOwned(w, t, w.timers[t]);
    ContinueKeepsLinearity(w);
    assert w.(timers := w.timers - {t}).timers - {t} == w.timers - {t};
    assert OnTimer(w, t, visible) == ContinueToLocking(w);
  }

  // One event, then runs.

  /** A VBlank the output was not waiting for, on an output that holds a timer. */
  ghost predicate Rogue(w: World, e: Event) {
    e.EVBlank? && e.o in w.outputs && w.outputs[e.o].redraw.HeldToken().Some?
  }

  lemma LinearMeansNoPanic(w: World, e: Event)
    requires TimersLinear(w) && Possible(w, e)
    ensures !Panics(w, e)
  {
    if e.ETimer? {
      assert TimerOwned(w, e.t, w.timers[e.t]);
    }
  }

  lemma OtherEventsKeepTokens(w: World, e: Event)
    requires Possible(w, e) && !Panics(w, e)
    requires e.EQueueRedraw? || e.EQueueRedrawAll? || e.ENewLockSurface? || e.EDeactivateMonitors? ||
             e.EActivateMonitors? || e.EResumeSession? || (e.ELockSurfaceCommit? && !w.lock.WaitingForSurfaces?)
    ensures SameTokens(w, Step(w, e))
  {
  }

  lemma TimerKeepsLinearity(w: World, t: Token, visible: set<SurfaceId>)
    requires TimersLinear(w) && Possible(w, ETimer(t, visible)) && !Panics(w, ETimer(t, visible))
    ensures TimersLinear(OnTimer(w, t, visible))
  {
    match w.timers[t]
    case LockDeadline => DeadlineFiresWhileWaiting(w, t, visible);
    case EstimatedVBlank(o) => EstimatedVBlankKeepsLinearity(w, t, o, visible);
  }

  lemma UnlockEventKeepsLinearity(w: World)
    requires TimersLinear(w)
    ensures TimersLinear(ActivateMonitors(Unlock(w)))
  {
    UnlockKeepsLinearity(w);
    SameTokensKeepLinearity(Unlock(w), ActivateMonitors(Unlock(w)));
  }

  lemma OtherEventsKeepLinearity(w: World, e: Event)
    requires TimersLinear(w) && Possible(w, e) && !Panics(w, e)
    requires e.EQueueRedraw? || e.EQueueRedrawAll? || e.ENewLockSurface? || e.EDeactivateMonitors? ||
             e.EActivateMonitors? || e.EResumeSession? || e.ELockSurfaceCommit?
    ensures TimersLinear(Step(w, e))
  {
    if e.ELockSurfaceCommit? && w.lock.WaitingForSurfaces? {
      ContinueKeepsLinearity(w);
    } else {
      OtherEventsKeepTokens(w, e);
      SameTokensKeepLinearity(w, Step(w, e));
    }
  }

  lemma StepKeepsLinearity(w: World, e: Event)
    requires TimersLinear(w) && Possible(w, e) && !Rogue(w, e)
    ensures !Panics(w, e) && TimersLinear(Step(w, e))
  {
    LinearMeansNoPanic(w, e);
    match e
    case ERedraw(o, input) => RedrawKeepsLinearity(w, o, input);
    case EVBlank(o, visible) => VBlankKeepsLinearityIff(w, o, visible);
    case ETimer(t, visible) => TimerKeepsLinearity(w, t, visible);
    case ELock(client, alive) => LockRequestKeepsLinearity(w, client, alive);
    case EUnlock => UnlockEventKeepsLinearity(w);
    case EAddOutput(moved) => AddOutputKeepsLinearity(w, moved);
    case ERemoveOutput(o, moved, mapped, closedUi) => RemoveOutputKeepsLinearity(w, o, moved, mapped, closedUi);
    case _ => OtherEventsKeepLinearity(w, e);
  }

  /** Each event is possible when it comes and no VBlank is rogue; whether anything panics is left open. */
  ghost predicate Regular(w: World, events: seq<Event>)
    decreases |events|
  {
    events == [] ||
    (Possible(w, events[0]) && !Rogue(w, events[0]) &&
     (!Panics(w, events[0]) ==> Regular(Step(w, events[0]), events[1..])))
  }

  /** On regular runs from start-up nothing panics, timers stay linear, and removed outputs leave no timer behind. */
  lemma RegularRunsNeverPanic(events: seq<Event>)
    requires Regular(Initial(), events)
    ensures Runs(Initial(), events) && TimersLinear(Run(Initial(), events))
  {
    RegularRunsKeepLinearity(Initial(), events);
  }

  lemma {:induction false} RegularRunsKeepLinearity(w: World, events: seq<Event>)
    requires TimersLinear(w) && Regular(w, events)
    ensures Runs(w, events) && TimersLinear(Run(w, events))
    decreases |events|
  {
    if events != [] {
      StepKeepsLinearity(w, events[0]);
      RegularRunsKeepLinearity(Step(w, events[0]), events[1..]);
    }
  }
}
