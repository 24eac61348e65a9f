# Verified models of the compositor's protocols

This project models, in Dafny, the parts of the compositor whose correctness spans several functions, and proves what
they are for. Each behaviour has a specification on values (datatypes and functions, one function per handler) and,
where the program changes objects in place, a class whose methods are proved to do exactly what the specification
says. The results about runs are lemmas about the specification.

- **Redraw, VBlank and session lock** (`RedrawModel`, `RedrawLock`, `RedrawTimers`, `RedrawCallbacks`,
  `RedrawProgress`, `Ymir`): an
  unbounded set of outputs, each with its redraw state, lock render state, callback sequence and last submitted frame;
  timers with tokens; the lock state machine. What a screen shows is the last *submitted* frame, which is also what the
  program goes by when it confirms a lock.
- **Hot-plug** (`HotplugModel`, `Tty`): devices, connectors and the reconciliation towards the output configuration.
- **Popup grabs and keyboard focus** (`PopupFocus`) and **hit-testing and rendering** (`HitTest`): priority chains
  written twice in the program, and where they agree.
- **Output placement** (`OutputNames`, `Placement`), **toplevel lifecycle and pre-commit hooks** (`ToplevelModel`,
  `Shell`), **pending maximized and fullscreen** (`PendingModel`, `PendingToplevel`), **key monitoring for assistive
  technologies** (`KeyMonitor`), **gesture grabs** (`GrabModel`, `Grabs`), **Bezier easing** (`Bezier`), **frame
  prediction** (`FrameClock`) and **input accumulators** (`Trackers`).

Verify with `dafny verify dfyconfig.toml`.

## What turned out false

Where the program does not meet a property everywhere, the exact condition is proved together with a counterexample.

- A VBlank for an output that holds an estimated-VBlank timer forgets the timer without removing it; the timer then
  reaches an `unreachable!()` arm (`RedrawTimers.VBlankKeepsLinearityIff`, `RogueVBlankThenTimerPanics`,
  `RoguePanicIsReachable`).
- An on-demand keyboard focus on a bottom or background layer does not stop a window popup from grabbing the keyboard,
  but takes the focus, so the grab is torn down (`PopupFocus.AdmittedGrabHasFocusIff`, `LowOnDemandFocusBreaksGrab`).
- While the overview is closing, the bottom and background layers are drawn scaled but take input at full size
  (`HitTest.InputMatchesVisualsIff`, `ClosingOverviewMismatch`).
- Under a covering fullscreen window a popup of those layers, drawn behind it, keeps the window from being activated
  (`HitTest.ActivationMatchesInput`, `HiddenPopupBlocksActivation`).
- Hot corners also take points that an overlay surface covers (`HitTest.HotCornerIff`, `HotCornerBeatsOverlay`).
- A move grab that scrolls the view never advances its last location, so touch and tablet input, which have no relative
  motion, scroll by the sum of the displacements at all frames (`GrabModel.ViewOffsetConservedIff`,
  `TouchViewOffsetOvercounts`).
- At the very moment of a presentation, without VRR, the frame clock predicts one frame later than right after it
  (`FrameClocks.PredictionIsMonotoneIff`).
- A modifier pressed on two keyboards at once can have a press handled and its release blocked
  (`KeyMonitor.PairMatchesIff`, `UnalternatedPairCanSplit`).
- Unmaximize and unfullscreen requests are ignored once the named workspace they were configured for is gone, and a window
  rule that names a workspace nobody has drops the client's wishes (`PendingModel.HandledIff`,
  `GoneWorkspaceIgnoresUnmaximize`, `UnknownWorkspaceDropsWishes`, `WishesCanBeDropped`).

## Model

| member | source | states |
|---|---|---|
| `RedrawLock.LockedMeansDark` | src/ymir.rs:4697-4733 | Lock safety: after every run from start-up, under any interleaving of lock requests, redraw outcomes, VBlanks, timers, hot-plug, monitors going off and on and session resumes, the session is reported locked, and every `locked` event of `ext_session_lock_v1` has been sent, only while no tracked output last submitted a frame of the session |
| `RedrawLock.LockedUntilUnlockRequest` | src/ymir.rs:5889-5949 | Once locked, the session stays locked and dark through every run without an unlock request, redraw failures and relocks included |
| `RedrawLock.LockingStep` | src/ymir.rs:4708-4733 | While locking lasts, an event never makes an output "still to lock"; a redrawn output is no longer, and a redraw never ends with all outputs locked and the lock unconfirmed |
| `RedrawLock.LockingResolves` | src/ymir.rs:5974-6003 | Locking cannot get stuck: once every output still to lock has been redrawn or removed (and some output redrawn, if all were locked already), the lock has been confirmed or given up |
| `RedrawLock.DrainedLockingWaitsForVBlank` | src/backend/tty.rs:1739-1756 | When the redraw loop is drained and the session is still locking, every output still to lock waits for a VBlank that will queue its redraw, and there is one |
| `RedrawLock.RedrawShrinksQueue` | src/ymir.rs:3730-3743 | A redraw takes its output off the queue and adds none, unless it ends the locking phase (a failed redraw unlocks and queues everything) |
| `RedrawTimers.RegularRunsNeverPanic` | src/backend/tty.rs:1834-1844 | If no VBlank reaches an output that holds an estimated-VBlank timer, then on every run from start-up no `unreachable!()` arm is taken; each timer is live exactly while its output holds its token, the lock deadline exactly while the session waits for lock surfaces, and removed outputs leave no timer |
| `RedrawTimers.VBlankKeepsLinearityIff` | src/backend/tty.rs:1739-1756 | A VBlank keeps that order exactly when its output holds no timer token, in any state with the order intact |
| `RedrawTimers.RogueVBlankThenTimerPanics` | src/backend/tty.rs:1834-1844 | From any state with the timers in order, after a VBlank on an output that holds a timer that timer is still live, and panics if it fires next |
| `RedrawTimers.RoguePanicIsReachable` | src/backend/tty.rs:1739-1756 | Start-up reaches such a panic by three possible events: an output comes, its first redraw fails, and a VBlank arrives for it |
| `RedrawTimers.DeadlineFiresWhileWaiting` | src/ymir.rs:5934-5946 | The lock deadline fires only in the state it was armed for, so its "wrong lock state" arm is dead, and the session is then locking or locked |
| `RedrawCallbacks.RunKeepsDue` | src/ymir.rs:4748 | Over every run, an output whose refresh-cycle sequence advanced without a round of frame callbacks has a redraw pending |
| `RedrawCallbacks.RedrawPaysOwn` | src/ymir.rs:5074-5111 | Such a redraw does send that round, whatever its outcome, and leaves the other outputs their dues |
| `RedrawCallbacks.CallbacksThrottled` | src/ymir.rs:463-483 | Over every run, a surface that gets its callbacks on one output only is granted at most one more than that output advances its sequence, 32-bit wrap-around included |
| `RedrawCallbacks.PassedOverIff` | src/ymir.rs:5074-5111 | Over every run, a round of callbacks passes over a visible surface exactly when its last grant came from the same output and no refresh cycle has started there since, or a whole number of turns of the 32-bit sequence |
| `RedrawProgress.LockRequestIsAnswered` | src/ymir.rs:5889-5949 | An unlocked session with outputs starts to wait for the client with a new deadline; without outputs, or when the holder has died, the lock is confirmed at once; otherwise nothing changes |
| `RedrawProgress.DeadlineStartsLocking` | src/ymir.rs:5934-5946 | When the deadline passes, locking begins for that client with every output queued, whatever surfaces are missing |
| `RedrawProgress.LastSurfaceStartsLocking` | src/handlers/compositor.rs:473-485 | So it does at the commit after which every output has a mapped lock surface, and at no other |
| `RedrawProgress.LaterCommitRedraws` | src/handlers/compositor.rs:473-485 | Outside the waiting phase a lock surface commit queues its output, and changes nothing else |
| `RedrawProgress.LockSurfaceIsTaken` | src/ymir.rs:6098-6125 | A surface of the client that holds or awaits the lock becomes the surface of its output; any other changes nothing |
| `RedrawProgress.WaitingEndsOnlyBy` | src/ymir.rs:5951-6017 | Waiting ends only by the unlock request, or in locking or locked for the same client by a commit, a removed output or the deadline |
| `RedrawProgress.LockingEndsLocked` | src/ymir.rs:4708-4733 | Over every run in which no redraw fails and nobody unlocks, locking ends locked and confirmed to the client once each output still to lock has been redrawn or removed |
| `RedrawProgress.RequestEndsLocked` | src/ymir.rs:5889-6003 | From request to lock: after a lock request, the deadline and undisturbed redraws of all outputs, in any run, the session is locked and the client has been told |
| `RedrawProgress.UnlockIsAnswered` | src/ymir.rs:6005-6017 | An unlock request leaves the session unlocked with monitors on, no lock surface, no deadline, and every output queued |
| `RedrawProgress.MonitorsComeBack` | src/ymir.rs:3083-3101 | Turning monitors off blanks every output, and turning them on or resuming the session has every output drawn again, nothing else changed |
| `RedrawProgress.NewOutputIsDrawn` | src/ymir.rs:2913-2943 | A new output is queued with nothing on screen, its lock render state that of the session; the others keep theirs |
| `RedrawProgress.RemovalLeavesOthers` | src/ymir.rs:2959-3031 | Removing an output drops it and its timer, leaves the others what they had, and queues those that moved or, when an overlay closes, all |
| `RedrawProgress.RemovalSettlesLock` | src/ymir.rs:2959-3031 | A removal confirms the lock when locking and all other outputs are locked, starts locking when waiting and all others have a mapped lock surface (or confirms, if there is no other), and else leaves the lock |
| `RedrawProgress.RedrawShows` | src/ymir.rs:4637-4764 | A redraw shows the frame of the session, or of the lock when locked or locking, exactly when it reaches the backend, renders and is queued; new damage then waits for a VBlank and starts a refresh cycle, none waits for the estimated one |
| `RedrawProgress.VBlankIsAnswered` | src/backend/tty.rs:1739-1817 | After a VBlank, an output with animations left, a redraw noted or an unexpected state is queued; otherwise it rests and sends one round of callbacks; nothing else changes |
| `RedrawProgress.EstimatedVBlankIsAnswered` | src/backend/tty.rs:1820-1851 | So it is after an estimated VBlank, which starts a refresh cycle and uses up its timer |
| `RedrawProgress.RedrawKeepsAnimationsIff` | src/backend/tty.rs:1868-2029 | A redraw that does not give up the lock lets no animating output rest exactly when it reaches the backend, or a timer is running, or nothing is left to animate |
| `RedrawProgress.AnimationsKeepGoing` | src/backend/tty.rs:1808-1816 | Over every run of such redraws, an output whose last render left animations is queued, waits for a VBlank or holds a timer: animations go on |
| `YmirState.Ymir.constructor` | src/ymir.rs:2559 | Start-up state of the redraw and lock protocol |
| `YmirState.Ymir.QueueRedraw` | src/ymir.rs:3725-3728 | Queues one output; a VBlank being waited for is noted to need a redraw, a running timer is kept |
| `YmirState.Ymir.QueueRedrawAll` | src/ymir.rs:3718-3722 | Queues every tracked output, nothing else |
| `YmirState.Ymir.SendFrameCallbacks` | src/ymir.rs:5074-5111 | Grants callbacks to exactly the visible surfaces not yet served on this output in this refresh cycle, and records them |
| `YmirState.Ymir.Lock` | src/ymir.rs:5889-5949 | New state after a lock request in every lock state, with a live or a dead holder |
| `YmirState.Ymir.ContinueToLocking` | src/ymir.rs:5974-6003 | Drops the deadline and starts locking, or confirms when there are no outputs |
| `YmirState.Ymir.MaybeContinueToLocking` | src/ymir.rs:5951-5972 | Starts locking exactly when all outputs have a mapped lock surface |
| `YmirState.Ymir.Unlock` | src/ymir.rs:6005-6017 | Unlocks, drops deadline and lock surfaces, queues everything |
| `YmirState.Ymir.ActivateMonitors` | src/ymir.rs:3092-3101 | Turning monitors on queues everything, once |
| `YmirState.Ymir.DeactivateMonitors` | src/ymir.rs:3083-3090 | Turning monitors off blanks every output, once |
| `YmirState.Ymir.ResumeSession` | src/backend/tty.rs:740-743 | A resumed session has its monitors on and everything queued |
| `YmirState.Ymir.NewLockSurface` | src/ymir.rs:6098-6125 | A lock surface is taken from the lock holder only |
| `YmirState.Ymir.LockSurfaceCommit` | src/handlers/compositor.rs:473-485 | A commit of a lock surface rechecks the lock while it waits for surfaces and redraws otherwise |
| `YmirState.Ymir.AddOutput` | src/ymir.rs:2913-2943 | A new output counts as locked if the session is locked or locking, and it and all moved outputs are queued |
| `YmirState.Ymir.RemoveOutput` | src/ymir.rs:2959-3031 | A removed output takes its timer along, and the lock is rechecked |
| `YmirState.Ymir.QueueEstimatedVBlankTimer` | src/backend/tty.rs:3006-3050 | Keeps the timer that is running, or starts one; its `unreachable!()` arms are dead under the precondition |
| `YmirState.Ymir.Render` | src/backend/tty.rs:1868-2029 | New state and result of a backend render: submitted, no damage or skipped |
| `YmirState.Ymir.DrawOutput` | src/ymir.rs:4637-4706 | Effect of a redraw up to the lock decision |
| `YmirState.Ymir.SettleLock` | src/ymir.rs:4708-4733 | Lock decision after a redraw: give up, confirm or keep waiting |
| `YmirState.Ymir.Redraw` | src/ymir.rs:4637-4764 | Whole redraw of one queued output |
| `YmirState.Ymir.RedrawQueuedOutputs` | src/ymir.rs:3730-3743 | The redraw loop terminates for every sequence of outcomes, leaves nothing queued, and its effect is a run of redraws |
| `YmirState.Ymir.OnVBlank` | src/backend/tty.rs:1739-1817 | VBlank in any redraw state, the unexpected ones included |
| `YmirState.Ymir.OnEstimatedVBlankTimer` | src/backend/tty.rs:1820-1851 | Estimated VBlank for a tracked or a removed output |
| `YmirState.Ymir.OnTimer` | src/ymir.rs:5934-5946 | A timer fires and is gone; with timers in order no panic is possible |
| `HotplugModel.ReconciledIffWanted` | src/backend/tty.rs:2399-2596 | After a pass, a connected desktop connector is lit exactly when the first configuration section that names it, by connector or by monitor, if any, is not off, it is no panel that gives way to the closed lid, and it was lit before or could be connected |
| `HotplugModel.IsOffIff` | ymir-config/src/output.rs:126-128 | Only the first section that names an output decides whether it is off |
| `HotplugModel.PanelsGiveWayIff` | src/backend/tty.rs:2379-2397 | Panels are disabled exactly when the lid is closed, they are not to be kept, and some connector not named like a panel is there |
| `HotplugModel.UnmentionedIsLit` | src/backend/tty.rs:2417-2427 | A connected desktop connector that no section names and that is not named like a panel ends lit if it can be connected |
| `HotplugModel.OfferedIffWanted` | src/backend/tty.rs:2547-2579 | A non-desktop connector is never lit, and after a pass is offered for lease exactly when it was before or is wanted in that sense |
| `HotplugModel.UnconnectedStays` | src/backend/tty.rs:2413-2579 | A connector that is not connected is not lit by a pass, goes dark only if unwanted, and its lease offer stays |
| `HotplugModel.ReconciledIsFixpoint` | src/backend/tty.rs:2399-2596 | A second pass changes nothing, even when connects keep failing |
| `HotplugModel.OffThenOnReconcilesAll` | src/backend/tty.rs:2560-2595 | Disconnecting what is unwanted and then connecting what is wanted, connector by connector in any order, is one pass |
| `HotplugModel.ChosenNameIsFree` | src/backend/tty.rs:1060-1088 | The name given to a new connector clashes with no known one |
| `HotplugModel.UnnamedIffAnswered` | src/backend/tty.rs:1050-1089 | After all new connectors of a scan have been named in order, one goes without its make, model and serial exactly when another known output answers to them |
| `HotplugModel.RescanKeepsUses` | src/backend/tty.rs:983-1137 | Whatever a scan brings, a connector that stays on its CRTC keeps its surface, unless the pass after it wants it off, and its lease offer; in a paused session none is lit |
| `TtyBackend.Tty.constructor` | src/backend/tty.rs:419-519 | Start state, with the invariant: enabled surfaces and tracked outputs in bijection by node and CRTC, live and parked lease nodes disjoint, dmabuf global exactly while a device uses the primary render node, names distinct |
| `TtyBackend.Tty.ConnectorDisconnected` | src/backend/tty.rs:1585-1630 | Drops the surface with its output, or the lease offer, of that connector alone |
| `TtyBackend.Tty.ConnectorConnected` | src/backend/tty.rs:1250-1583 | Offers a non-desktop connector for lease, else adds surface and output together, or neither when it fails |
| `TtyBackend.Tty.ShouldDisableLaptopPanels` | src/backend/tty.rs:2379-2397 | Panels are disabled exactly when the lid is closed, the configuration does not keep them, and an external connector is there |
| `TtyBackend.Tty.Collect` | src/backend/tty.rs:2413-2579 | Collects exactly the enabled connectors to disconnect and the idle ones to connect |
| `TtyBackend.Tty.OnOutputConfigChanged` | src/backend/tty.rs:2399-2596 | Ends in the reconciled devices while the session is active; a paused session only remembers to do it. Keeps the bijection |
| `TtyBackend.Tty.IsNameTaken` | src/backend/tty.rs:1065-1068 | True exactly when a known output matches the name |
| `TtyBackend.Tty.NameConnector` | src/backend/tty.rs:1060-1089 | The new connector is known by its full name, or by its connector name if an output answers to the full one |
| `TtyBackend.Tty.TakeScan` | src/backend/tty.rs:983-1089 | Withdraws and forgets the connectors that the scan no longer finds and names the new ones in the order of the scan, each against all known before; the rest stays |
| `TtyBackend.Tty.DeviceChanged` | src/backend/tty.rs:949-1137 | An ignored device and one whose scan fails are left alone, an unknown one is added if it has a path and can be added, a known one takes over the scan and all devices end reconciled; connectors that stay keep their names and uses. Keeps the invariant |
| `TtyBackend.Tty.DeviceAdded` | src/backend/tty.rs:748-947 | Succeeds exactly when the device is ignored, or opens with an allocator and, if needed, a primary renderer; tracks nothing otherwise. A parked lease state is dropped, and all devices end reconciled if the scan succeeds |
| `TtyBackend.Tty.DeviceRemoved` | src/backend/tty.rs:1139-1248 | The device and exactly its outputs are gone, its lease state is parked, and the dmabuf global goes with its last user |
| `TtyBackend.Tty.LeaseState` | src/backend/tty.rs:2607-2622 | Finds the state of the live device or the parked one, creating it if need be, and changes nothing else |
| `PopupFocus.FocusIsBestClaim` | src/ymir.rs:1166-1265 | For every desktop, layer list, grab and on-demand focus, the focus goes to the claim of least rank among dialogs, lock, popup grab, exclusive and on-demand layer surfaces off the backdrop, window and overview, the earlier in the layer list on a tie; and to nothing exactly when nobody claims it |
| `PopupFocus.OnlyOneWins` | src/ymir.rs:1166-1265 | There is only one such claim |
| `PopupFocus.FocusedMayGrab` | src/handlers/xdg_shell.rs:334-465 | A surface that has the focus without any grab would be admitted to one |
| `PopupFocus.BackdropMayNotGrab` | src/handlers/xdg_shell.rs:334-465 | A mapped surface on the backdrop is not |
| `PopupFocus.PointerGrabLeavesFocus` | src/ymir.rs:1166-1265 | A grab whose root takes no keyboard leaves the focus as without a grab |
| `PopupFocus.KeyboardIsTakenUnless` | src/handlers/xdg_shell.rs:430-442 | A granted grab takes the keyboard unless an input method has it or its root is a layer surface without keyboard interactivity |
| `PopupFocus.AdmittedGrabHasFocusIff` | src/ymir.rs:1132-1265 | For every desktop and layer list, a root admitted to a keyboard grab is the surface that the focus computation picks exactly when the two chains agree: on the lock screen, or with the switcher closed and, for a layer root, no overview over a lower layer, for a window root, fullscreen above the top layer, or no overview and no on-demand focus on a lower layer |
| `PopupFocus.LowOnDemandFocusBreaksGrab` | src/handlers/xdg_shell.rs:334-465 | An on-demand focus on a bottom layer lets a window grab in and then gives the focus elsewhere |
| `PopupFocus.Seat.Grab` | src/handlers/xdg_shell.rs:327-465 | Grants exactly when the root may grab, the popup manager agrees and no other grab is in the way; records the root and whether the grab takes the keyboard |
| `PopupFocus.Seat.UpdateKeyboardFocus` | src/ymir.rs:1132-1387 | New on-demand focus, focus and popup grab; a keyboard grab is torn down exactly when the focus changes away from its root |
| `PopupFocus.Seat.GrabThenUpdate` | src/ymir.rs:1327-1344 | After the next focus update a granted keyboard grab is there with the focus on its root when the chains agree; else the focus is elsewhere and the grab gone if the focus changed. A grab of the pointer alone stays |
| `HitTest.InputMatchesVisuals` | src/ymir.rs:3342-3517 | While the lower layers take no input, are not scaled or are out of sight: for every screen and point of the output, hit-testing gives the hot corner where one takes the point, else the frontmost element of the rendered picture that takes input and accepts the point, crops, moves and scaling undone |
| `HitTest.InputMatchesVisualsIff` | src/ymir.rs:4251-4494 | On every view, a workspace switch or an overshooting zoom included, that holds for all screens and points exactly when the overview is open, the zoom is 1 or all workspaces are out of sight: a closing overview breaks it |
| `HitTest.ClosingOverviewMismatch` | src/ymir.rs:3400-3407 | On every other view some screen takes input where nothing is drawn |
| `HitTest.AllWorkspaces` | src/ymir.rs:4460-4486 | The copies of the lower layers drawn on all workspaces together are what hit-testing finds on the one under the point |
| `HitTest.WorkspacesApart` | src/layout/monitor.rs:1517-1546 | No point is on two workspaces, whatever positive zoom and switch |
| `HitTest.ActivationMatchesInput` | src/ymir.rs:3297-3325 | The window to activate is the window that hit-testing reports, and none otherwise, except that under a covering fullscreen window a lower popup drawn behind it still prevents activation |
| `HitTest.HiddenPopupBlocksActivation` | src/ymir.rs:3213-3255 | Under every covering fullscreen window that exception occurs: at each point there is a screen on which the window is drawn in front and takes input, but cannot be activated |
| `HitTest.HotCornerIff` | src/ymir.rs:3478-3482 | A hot corner is reported exactly where it takes the point, and this is exactly where hit-testing departs from the picture while that holds otherwise |
| `HitTest.HotCornerBeatsOverlay` | src/ymir.rs:3478-3482 | Without a covering fullscreen window, a hot corner takes its points even from an overlay surface drawn in front of everything |
| `Bezier.CubicBezier.TForX` | src/animation/bezier.rs:29-45 | 31 rounds of bisection give the middle of the bisected interval, in [0, 1] |
| `Bezier.CubicBezier.Y` | src/animation/bezier.rs:49-59 | Easing with its guards at both ends |
| `Bezier.DividesPolygon` | src/animation/bezier.rs:19-27 | The coordinate polynomial is the point that de Casteljau subdivision gives |
| `Bezier.EasingHasEnds` | src/animation/bezier.rs:49-59 | Easing is 0 up to 0 and 1 from 1 on, for any control points |
| `Bezier.ParameterBrackets` | src/animation/bezier.rs:29-45 | For any control points, the parameter is the middle of an interval of width 2^-31 whose ends enclose `x` |
| `Bezier.ParameterIsAccurate` | src/animation/bezier.rs:29-45 | With x control values in [0, 1], the curve at the parameter is within 3 * 2^-32 of `x` |
| `Bezier.EasedFollowsCurve` | src/animation/bezier.rs:49-59 | With all control values in [0, 1], at each curve point the eased value is within 3 * 2^-32 of its y coordinate, between the guards |
| `Bezier.EasedIsMonotone` | src/animation/bezier.rs:49-59 | Easing is monotone into [0, 1] for y control values in [0, 1], whatever the x control values |
| `Bezier.RisesBetween` | src/animation/bezier.rs:19-27 | A coordinate with control values in [0, 1] rises strictly on [0, 1], with slope at most 3 |
| `Bezier.BisectionMonotone` | src/animation/bezier.rs:33-42 | Bisection for a larger value never ends lower, for any function |
| `OutputNames.LessIff` | ymir-config/src/output.rs:223-239 | Outputs with a make, model or serial come first, then make, model, serial and connector decide in dictionary order, an absent part before a present one |
| `OutputNames.CompareReverse` | ymir-config/src/output.rs:223-239 | Comparing names the other way round reverses the answer, and only equal names compare equal |
| `OutputNames.CompareTransitive` | ymir-config/src/output.rs:223-239 | The order of names is transitive, hence a strict total order |
| `Placement.PlacedApart` | src/ymir.rs:2795-2846 | No two placed outputs overlap |
| `Placement.ConfigHonouredIff` | src/ymir.rs:2807-2834 | An output is at its configured position exactly when that is free among those placed before it |
| `Placement.OthersGoToTheRight` | src/ymir.rs:2837-2846 | Every other output is placed at y 0, flush with the right edge of the rightmost output placed before it, the first one at x 0 |
| `Placement.RowWithoutConfig` | src/ymir.rs:2837-2846 | Without configured positions, outputs form a row: each starts at the sum of the widths before it |
| `Placement.PartsAreSorted` | src/ymir.rs:2773-2783 | Outputs with a configured position, and those without, are each in the order of their names |
| `Placement.ConfiguredComeFirst` | src/ymir.rs:2782-2783 | Outputs with a configured position are placed before the others |
| `Placement.PlacementIgnoresListing` | src/ymir.rs:2773-2780 | The order and the whole placement are the same however the outputs are listed |
| `Placement.RepositionIsFixpoint` | src/ymir.rs:2742-2863 | Repositioning the result, listed in any order, gives the same placement |
| `Placement.RepositioningAgainMovesNothing` | src/ymir.rs:2851-2861 | A second call moves, and so redraws, nothing |
| `Placement.NextAndPreviousAreInverse` | src/ymir.rs:3588-3607 | The next of the previous output and the previous of the next are the output itself; there is one exactly with at least two outputs |
| `Placement.Neighbours` | src/ymir.rs:3588-3607 | The neighbours are the adjacent outputs of the order, wrapping around |
| `Placement.OutputSpace.constructor` | src/ymir.rs:2559 | An empty space |
| `Placement.OutputSpace.MapOutput` | src/ymir.rs:2805-2861 | Adds one output at its position, queueing it exactly when it is elsewhere than before |
| `Placement.OutputSpace.RepositionOutputs` | src/ymir.rs:2742-2863 | New space, order, redrawn outputs and change flag: exactly the outputs that end up elsewhere are redrawn |
| `KeyMonitor.GrabbedModsAreUnion` | src/dbus/freedesktop_a11y.rs:356-361 | After any requests, keys and disconnects, the grabbed modifiers are the union of the connected clients' modifiers |
| `KeyMonitor.ClientsFollowRequests` | src/dbus/freedesktop_a11y.rs:117-232 | After every interleaving, a client's record is what it last asked for: watching, grabbing, and its key grabs |
| `KeyMonitor.PressTimesAreNoted` | src/dbus/freedesktop_a11y.rs:315-335 | The press time kept for a key is that of its last press while it was a grabbed modifier |
| `KeyMonitor.PressIsBlockedIff` | src/dbus/freedesktop_a11y.rs:300-345 | A press is blocked exactly when the key is held blocked or some client asks for it, as a grab of everything, a modifier, a key under a held modifier or a keystroke with its modifiers, and it is no quick second press of a grabbed modifier |
| `KeyMonitor.ToldIff` | src/dbus/freedesktop_a11y.rs:365-392 | A client is told of a key exactly when it is watching or asks for it in that sense |
| `KeyMonitor.SuppressedIffBlockedPressHeld` | src/dbus/freedesktop_a11y.rs:300-345 | A key is suppressed exactly while a blocked press of it has not been released, for every interleaving |
| `KeyMonitor.ReleaseBlockedIffPressWas` | src/dbus/freedesktop_a11y.rs:306-322 | A release is blocked exactly when some press of the key since its last release was |
| `KeyMonitor.PairMatchesIff` | src/dbus/freedesktop_a11y.rs:296-345 | For every interleaving, a release is blocked like the press before it except exactly when, as could be seen before the press, the key was suppressed already and the press came within the repeat delay of the last one of a grabbed modifier |
| `KeyMonitor.AlternatingPairsMatch` | src/dbus/freedesktop_a11y.rs:306-345 | So it is whenever presses and releases of the key alternate |
| `KeyMonitor.UnalternatedPairCanSplit` | src/dbus/freedesktop_a11y.rs:315-335 | A run in which it is not: a modifier pressed on two keyboards in quick succession, its second press passed, the release blocked |
| `KeyMonitor.KeyboardMonitor.constructor` | src/dbus/freedesktop_a11y.rs:34-41 | No clients and no suppressed keys |
| `KeyMonitor.KeyboardMonitor.Grab` | src/dbus/freedesktop_a11y.rs:117-129 | Only a request with a sender is taken; it sets that client grabbing and nothing else |
| `KeyMonitor.KeyboardMonitor.Ungrab` | src/dbus/freedesktop_a11y.rs:137-150 | Ends the grab of a known client; key grabs stay |
| `KeyMonitor.KeyboardMonitor.Watch` | src/dbus/freedesktop_a11y.rs:158-170 | Sets the client watching |
| `KeyMonitor.KeyboardMonitor.Unwatch` | src/dbus/freedesktop_a11y.rs:177-190 | Ends the watch of a known client |
| `KeyMonitor.KeyboardMonitor.SetGrabs` | src/dbus/freedesktop_a11y.rs:211-232 | Replaces the key grabs of the client and recomputes the grabbed modifiers |
| `KeyMonitor.KeyboardMonitor.Disconnect` | src/dbus/freedesktop_a11y.rs:529-541 | Forgets the client and its modifiers |
| `KeyMonitor.KeyboardMonitor.RebuildGrabbedMods` | src/dbus/freedesktop_a11y.rs:356-361 | The loop computes the union |
| `KeyMonitor.KeyboardMonitor.ProcessKey` | src/dbus/freedesktop_a11y.rs:254-352 | Verdict, suppressed keys, press times and notified clients for a key event, each as a condition on the old state |
| `ToplevelModel.ToplevelsAreSplit` | src/handlers/xdg_shell.rs:54-59 | After every possible run, each live toplevel is either unmapped or in the layout, never both, and nothing else is |
| `ToplevelModel.MappedIffBuffered` | src/handlers/compositor.rs:78-330 | After every run, a toplevel is in the layout exactly when its last commit left a buffer attached, else unmapped; then it is configured exactly when the initial configure was sent since it began to wait |
| `ToplevelModel.CommitPlaces` | src/handlers/compositor.rs:78-330 | A commit with a buffer maps its toplevel, one without unmaps it to wait for a new configure, and no other toplevel moves |
| `ToplevelModel.CommitLeavesOthers` | src/handlers/compositor.rs:78-330 | A commit leaves the place and the hooks of every other surface |
| `ToplevelModel.CachedRootIsLast` | src/handlers/compositor.rs:78-330 | After every run, the cached root of a surface is that of its last commit, and is cached exactly while both live |
| `ToplevelModel.OneHookPerSurface` | src/handlers/compositor.rs:538-594 | Each live surface has exactly one buffer hook, its window's when mapped and the default one otherwise; dead surfaces leak none |
| `ToplevelModel.NoTroubleEver` | src/handlers/compositor.rs:538-594 | No error or panic arm for duplicate, missing or dead-surface hooks, missing or doubled toplevels is ever taken, and the root cache knows live surfaces only |
| `ToplevelModel.DestructionOrdersAgree` | src/handlers/compositor.rs:511-524 | Destroying the surface and its toplevel in either order leaves the same state, up to hook numbering, and no hook |
| `ShellState.Shell.constructor` | src/handlers/compositor.rs:538-594 | The empty state, with the invariant |
| `ShellState.Shell.AddDefaultDmabufPreCommitHook` | src/handlers/compositor.rs:539-586 | Adds a default hook, with the error arms |
| `ShellState.Shell.RemoveDefaultDmabufPreCommitHook` | src/handlers/compositor.rs:588-594 | Removes the default hook, with the error arm |
| `ShellState.Shell.NewSurface` | src/handlers/compositor.rs:52-54 | A new surface with its default hook, keeping the invariant |
| `ShellState.Shell.NewToplevel` | src/handlers/xdg_shell.rs:54-59 | A new unmapped toplevel; the assertion holds |
| `ShellState.Shell.Commit` | src/handlers/compositor.rs:78-330 | Root cache, mapping and unmapping with the exchange of hooks, or nothing; and whether an initial configure is due |
| `ShellState.Shell.SendInitialConfigure` | src/handlers/xdg_shell.rs:1237-1251 | The idle callback configures a toplevel that still waits for it |
| `ShellState.Shell.ToplevelDestroyed` | src/handlers/xdg_shell.rs:878-946 | The toplevel leaves whichever place it is in; a live surface gets its default hook back; the arm for neither place is dead |
| `ShellState.Shell.SurfaceDestroyed` | src/handlers/compositor.rs:493-525 | The surface leaves the cache, with its default hook if it has one |
| `PendingModel.RunIsConsistent` | src/handlers/xdg_shell.rs:467-876 | For any run of requests on an unmapped toplevel, once configured it is maximized exactly when pending maximized and not fullscreen; never both |
| `PendingModel.HandledIff` | src/handlers/xdg_shell.rs:467-876 | A request does what it says exactly when it comes before the initial configure or the layout has a workspace for it, of the remembered name where one is asked for; otherwise it is ignored, and an initial configure drops the wishes |
| `PendingModel.RequestGoesTo` | src/handlers/xdg_shell.rs:710-738 | A configured toplevel asks for the requested output or the one it remembers if it is there, else for its parent's, else for the active one; leaving a state, it first looks for the named workspace |
| `PendingModel.InitialConfigureGoesTo` | src/handlers/xdg_shell.rs:1080-1193 | The initial configure goes to the workspace of the rules, else to their output, else by the same order, and remembers the name of the workspace it was configured for |
| `PendingModel.OnlyLastWishesCount` | src/handlers/xdg_shell.rs:1177-1193 | While workspaces are found and no rule interferes, the state depends only on the last maximize-type and the last fullscreen-type request, wherever the initial configure came |
| `PendingModel.GoneWorkspaceIgnoresUnmaximize` | src/handlers/xdg_shell.rs:617-624 | Once the named workspace of a toplevel is gone, unmaximize and unfullscreen requests are ignored while maximize and fullscreen ones are not |
| `PendingModel.UnknownWorkspaceDropsWishes` | src/handlers/xdg_shell.rs:1150-1193 | A rule that names a workspace on no monitor makes the initial configure drop every wish, the other rules notwithstanding |
| `PendingModel.WishesCanBeDropped` | src/handlers/xdg_shell.rs:1150-1193 | A run whose client last asked to be maximized, on a desk with a monitor, that ends configured without either state |
| `PendingToplevelState.PendingToplevel.constructor` | src/window/unmapped.rs:82-91 | A toplevel without wishes |
| `PendingToplevelState.PendingToplevel.MaximizeRequest` | src/handlers/xdg_shell.rs:467-547 | Notes the wish, or once configured sets pending maximized, shown unless fullscreen, and sends one configure |
| `PendingToplevelState.PendingToplevel.UnmaximizeRequest` | src/handlers/xdg_shell.rs:549-666 | Drops the wish, or once configured the pending and shown state if its workspace is found, and sends one configure |
| `PendingToplevelState.PendingToplevel.FullscreenRequest` | src/handlers/xdg_shell.rs:668-758 | Notes the wish and its output, or once configured shows fullscreen in place of maximized and sends one configure |
| `PendingToplevelState.PendingToplevel.UnfullscreenRequest` | src/handlers/xdg_shell.rs:760-876 | Drops the wish, or once configured leaves fullscreen for the pending maximized state and sends one configure |
| `PendingToplevelState.PendingToplevel.SendInitialConfigure` | src/handlers/xdg_shell.rs:1080-1235 | Configures once, combining rules and wishes |
| `GrabModel.MoveIsConserved` | src/input/move_grab.rs:219-250 | While a window is moved, the movement passed to the layout is the way from the start to the last location accounted for, travel outside all outputs included, over every run |
| `GrabModel.MoveIsBracketed` | src/input/move_grab.rs:83-172 | Over every run, a released grab has ended exactly the gesture it began, and updates come only in between |
| `GrabModel.AbsoluteViewOffsetOvercountsIff` | src/input/move_grab.rs:251-266 | In a view offset, a frame without relative motion leaves the movement passed correct exactly when the grab was where it started |
| `GrabModel.ViewOffsetPassesSum` | src/input/move_grab.rs:251-266 | Over every run, a view offset gesture has been passed the sum, over its frames, of the relative motion or, lacking that, of the displacement from the start |
| `GrabModel.ViewOffsetConservedIff` | src/input/move_grab.rs:251-266 | Without relative motion, at each such frame the movement passed is the way travelled exactly when the displacements at the earlier frames sum to zero |
| `GrabModel.TouchViewOffsetOvercounts` | src/input/move_grab.rs:251-266 | Two equal steps to the right by touch, of 8 or more, scroll the view by three |
| `GrabModel.TouchIsConservedAndBracketed` | src/input/touch_overview_grab.rs:75-272 | In every recognized gesture the movement passed is the way to the last location on the gesture's axis, and a released grab has ended exactly what it began, second fingers included |
| `GrabModel.SpatialIsConservedAndBracketed` | src/input/spatial_movement_grab.rs:71-147 | A released grab has ended exactly the gesture it began or took over; without relative motion the movement passed is the way to the last location |
| `GrabModel.MoveRecognizes` | src/input/move_grab.rs:174-218 | Under 8 pixels nothing is recognized; beyond, a mostly sideways drag of a tiled window with scrolling enabled is a view offset and any other an interactive move, begun with the whole way, or the window is activated where that cannot begin |
| `GrabModel.TouchRecognizes` | src/input/touch_overview_grab.rs:75-160 | A window held for half a second is moved, even without motion; else beyond 16 pixels a sideways drag over a workspace scrolls the view and any other switches workspaces |
| `GrabModel.SpatialRecognizes` | src/input/spatial_movement_grab.rs:71-129 | Beyond 8 pixels, a mostly sideways drag scrolls the view, but lets go off its output, and any other switches workspaces; the movement is passed against the drag |
| `GrabModel.FramePassesMotion` | src/input/move_grab.rs:219-270 | A frame passes the relative motion, or lacking that the way since the last location, and a frame without motion passes nothing |
| `GrabModel.MotionIsRemembered` | src/input/move_grab.rs:309-339 | Motion sets the location and relative motion adds up, each with its time; relative time is preferred |
| `GrabModel.TogglesWhileMoving` | src/input/move_grab.rs:272-305 | Toggling reaches the layout once while a window is moved, begins the move if it can, and is ignored in a view offset |
| `GrabModel.LettingGo` | src/input/move_grab.rs:83-118 | A release ends the gesture or, lacking one, activates the window, once |
| `Grabs.PointerMoveGrab.constructor` | src/input/move_grab.rs:49-73 | A grab that has recognized nothing |
| `Grabs.PointerMoveGrab.Motion` | src/input/move_grab.rs:309-325 | Remembers the location, and the time unless relative motion gave one |
| `Grabs.PointerMoveGrab.RelativeMotion` | src/input/move_grab.rs:327-339 | Adds up relative motion until the frame |
| `Grabs.PointerMoveGrab.OnFrame` | src/input/move_grab.rs:174-270 | Recognition, and what is passed to the layout, in every gesture state |
| `Grabs.PointerMoveGrab.OnToggleFloating` | src/input/move_grab.rs:272-305 | Starts the move if needed and toggles; a view offset ignores it |
| `Grabs.PointerMoveGrab.OnUngrab` | src/input/move_grab.rs:83-118 | Ends the gesture, or activates the window |
| `Grabs.PointerMoveGrab.Frame` | src/input/move_grab.rs:381-394 | Lets go when the frame ends the gesture |
| `Grabs.TouchOverviewGrab.constructor` | src/input/touch_overview_grab.rs:49-73 | A grab that has recognized nothing |
| `Grabs.TouchOverviewGrab.Motion` | src/input/touch_overview_grab.rs:284-299 | Remembers location and time |
| `Grabs.TouchOverviewGrab.OnFrame` | src/input/touch_overview_grab.rs:75-187 | Hold and scroll recognition, and what is passed to the layout; the last location is put back outside all outputs |
| `Grabs.TouchOverviewGrab.OnUngrab` | src/input/touch_overview_grab.rs:189-249 | Ends the gesture, or activates the window |
| `Grabs.TouchOverviewGrab.SecondFinger` | src/input/touch_overview_grab.rs:253-272 | Toggles floating exactly while a window is held |
| `Grabs.TouchOverviewGrab.Frame` | src/input/touch_overview_grab.rs:301-308 | Lets go when the frame ends the gesture |
| `Grabs.SpatialMovementGrab.constructor` | src/input/spatial_movement_grab.rs:38-61 | A grab that has recognized nothing, or takes over a view offset |
| `Grabs.SpatialMovementGrab.Motion` | src/input/spatial_movement_grab.rs:151-167 | Remembers the location, and the time unless relative motion gave one |
| `Grabs.SpatialMovementGrab.RelativeMotion` | src/input/spatial_movement_grab.rs:169-181 | Adds up relative motion until the frame |
| `Grabs.SpatialMovementGrab.OnFrame` | src/input/spatial_movement_grab.rs:71-129 | Recognition, and what is passed to the layout |
| `Grabs.SpatialMovementGrab.OnUngrab` | src/input/spatial_movement_grab.rs:131-147 | Ends the gesture, if any |
| `Grabs.SpatialMovementGrab.Frame` | src/input/spatial_movement_grab.rs:206-219 | Lets go when the frame ends the gesture |
| `FrameClocks.PredictsFirstMultiple` | src/frame_clock.rs:82-99 | Without VRR, for a time after the last presentation, the prediction is the first whole number of intervals past it that is strictly later, at most one interval away |
| `FrameClocks.PredictsAfterEarlyVBlank` | src/frame_clock.rs:68-80 | For an early VBlank, however early, it is exactly one interval past the last presentation; at the very moment of presentation it is two without VRR |
| `FrameClocks.PredictsWithVrr` | src/frame_clock.rs:88-99 | With VRR it is now once a full interval has passed, and one interval past the last presentation before |
| `FrameClocks.PredictionIsMonotoneIff` | src/frame_clock.rs:56-100 | A later clock predicts no earlier frame, with exactly one exception, at the moment of presentation without VRR |
| `FrameClocks.FrameClock.constructor` | src/frame_clock.rs:14-27 | A zero interval counts as unknown |
| `FrameClocks.FrameClock.SetVrr` | src/frame_clock.rs:34-41 | A change of mode forgets the last presentation |
| `FrameClocks.FrameClock.Presented` | src/frame_clock.rs:47-54 | A zero time is ignored |
| `FrameClocks.FrameClock.NextPresentationTime` | src/frame_clock.rs:56-100 | From the monotonic time and the fields, gives the prediction that the results above are about, or now when the interval or the last presentation is unknown |
| `Trackers.ScrollConservedIff` | src/input/scroll_tracker.rs:17-39 | Ticks and accumulator account for all that was scrolled exactly when less than 128 ticks are held; less than one tick is held over |
| `Trackers.OneWayScrollConserves` | src/input/scroll_tracker.rs:17-39 | Over any run in one direction short of the clamp, ticks and accumulator add up to the sum of the amounts |
| `Trackers.SplitScrollsAgree` | src/input/scroll_tracker.rs:17-39 | Splitting a one-way scroll differently gives the same total ticks and the same rest |
| `Trackers.ReversalStartsAfresh` | src/input/scroll_tracker.rs:17-39 | A scroll in the other direction counts as the first one |
| `Trackers.RemainderIsTruncated` | src/input/scroll_tracker.rs:33-36 | Whole ticks and remainder make up the amount, the remainder is under a tick and has its sign |
| `Trackers.ScrollTracker.constructor` | src/input/scroll_tracker.rs:9-15 | At rest, with any 8-bit tick |
| `Trackers.ScrollTracker.Accumulate` | src/input/scroll_tracker.rs:17-39 | New state and ticks, the zero tick and the change of direction included; panics exactly when the tick is negative |
| `Trackers.ScrollTracker.Reset` | src/input/scroll_tracker.rs:41-44 | At rest again |
| `Trackers.SwipeTracker.constructor` | src/input/swipe_tracker.rs:21-26 | Empty, with the invariant: the history is the accepted log cut to the last 150 ms and the position the sum of all accepted movement |
| `Trackers.SwipeTracker.Push` | src/input/swipe_tracker.rs:29-46 | Accepts a reading exactly when it is not older than the last, and keeps the invariant |
| `Trackers.SwipeTracker.TrimHistory` | src/input/swipe_tracker.rs:74-86 | The pop loop filters the history by age |
| `Trackers.SwipeTracker.Velocity` | src/input/swipe_tracker.rs:54-66 | Movement per second over the readings of the last 150 ms, zero when they span no time |

## Left out

- The kernel and Smithay: VBlank delivery, page flips, frame presentation and damage tracking are inputs; a frame has
  damage exactly when its content differs from the last submitted one, and clearing framebuffers when monitors go off is
  assumed to succeed.
- The winit and headless backends, the VBlank throttle, on-demand VRR, screencasts and screenshots.
- The 995 ms fallback of Smithay's frame-callback throttling; only the sequence-based grants are counted.
- The lock's cursor handling, gamma, idle inhibition and the delayed removal of output globals.
- Session resume scans devices one by one; it is modelled by the per-device events and one reconciliation pass.
- DRM lease contents: a lease state is only there or not, and a connector offer is a pair of connector and CRTC.
- Connector and monitor names are taken to be unique and never to imitate each other; names compare case-sensitively.
- The order in which connectors are connected in one pass, which the reconciled state does not depend on.
- Popup positioning, pointer grabs and input-method popups; popup managers and other grabs answer as parameters.
- A fullscreen window covers the top layer only while the overview is closed; the focus results take this from the layout.
- Layout internals: interactive moves, workspaces, windows and their hit-testing answer through parameters.
- Rounding of workspace positions to physical pixels, and the strip by which an output's ceiled geometry exceeds its view;
  positions in global space.
- Floating point: coordinates, amounts and curves are real numbers. NaN and infinite amounts are left out.
- Output sizes are one integer size per output, where the program places by rounded and measures by ceiled sizes; positions
  do not wrap at 32 bits.
- Saturating and overflowing durations: times are unbounded naturals.
- Scaling, transforms and modes of outputs; window sizes, tiling states and rules other than those for maximizing,
  fullscreen and target workspace or output.
- The subsurface tree: a commit carries the topmost ancestor of its surface. Layer, popup and cursor surfaces have no
  handlers here beyond their hooks and cache entries.
- Transactions, close animations and activation tokens.
- D-Bus transport and the contents of key events; which clients are told is modelled.
- Deceleration and projected end positions of swipes, spring animations and the remaining easing curves.
- Velocity: its contract gives the value in seconds over real numbers, without rounding.
- The debug option that disables monitor names is fixed for the lifetime of the backend.
- Render: presentation feedback, debug drawing and waiting for a frame to complete have no counterpart.
- MoveIsConserved: claimed for moved windows only; view offsets have the exact condition of `ViewOffsetConservedIff`.
