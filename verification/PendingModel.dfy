/**
 * Maximizing and fullscreening a toplevel that is not mapped yet: wishes before the initial configure, pending
 * toplevel states after it. A toplevel state holds Maximized and Fullscreen never both, so a maximized wish under
 * fullscreen is remembered apart.
 */
module PendingModel {
  import opened Prelude

  // Workspace names up to case.
  type Name = nat

  datatype Workspace = Workspace(name: Option<Name>)

  datatype Monitor = Monitor(output: Output, workspaces: seq<Workspace>, active: nat)

  /** The layout at the time of a request, and the output of the toplevel's mapped parent, if any. */
  datatype Desk = Desk(monitors: seq<Monitor>, active: nat, parentOutput: Option<Output>)
  {
    ghost predicate Valid() {
      && (monitors != [] ==> active < |monitors|)
      && forall m | m in monitors :: m.active < |m.workspaces|
    }

    function ActiveMonitor(): Option<Monitor> {
      if active < |monitors| then Some(monitors[active]) else None
    }

    function ActiveWorkspace(): Option<Workspace> {
      var m := ActiveMonitor();
      if m.Some? && m.value.active < |m.value.workspaces| then Some(m.value.workspaces[m.value.active]) else None
    }

    function MonitorForOutput(output: Option<Output>): Option<Monitor> {
      if output.None? then None else FindMonitor(monitors, (m: Monitor) => m.output == output.value)
    }

    function MonitorForWorkspace(name: Option<Name>): Option<Monitor> {
      if name.None? then None else FindMonitor(monitors, (m: Monitor) => Workspace(name) in m.workspaces)
    }

    /** The first of these to exist: a given monitor, the output's, the parent's (flagged), the active one. */
    function Pick(given: Option<Monitor>, output: Option<Output>): Option<(Monitor, bool)> {
      if given.Some? then Some((given.value, false))
      else if MonitorForOutput(output).Some? then Some((MonitorForOutput(output).value, false))
      else if MonitorForOutput(parentOutput).Some? then Some((MonitorForOutput(parentOutput).value, true))
      else if ActiveMonitor().Some? then Some((ActiveMonitor().value, false))
      else None
    }

    /** A named workspace is looked for on the picked monitor alone; otherwise the active workspace will do. */
    function WorkspaceOn(picked: Option<(Monitor, bool)>, name: Option<Name>): Option<Workspace> {
      if picked.None? then ActiveWorkspace()
      else
        var m := picked.value.0;
        if name.Some? then if Workspace(name) in m.workspaces then Some(Workspace(name)) else None
        else if m.active < |m.workspaces| then Some(m.workspaces[m.active])
        else None
    }

    /** There is a workspace to place the window on, of the given name if there is one. */
    predicate HasWorkspace(name: Option<Name>) {
      monitors != [] && (name.Some? ==> exists m | m in monitors :: Workspace(name) in m.workspaces)
    }
  }

  function FindMonitor(ms: seq<Monitor>, wanted: Monitor -> bool): (found: Option<Monitor>)
    ensures found.Some? ==> found.value in ms && wanted(found.value)
    ensures found.None? ==> forall m | m in ms :: !wanted(m)
  {
    if ms == [] then None else if wanted(ms[0]) then Some(ms[0]) else FindMonitor(ms[1..], wanted)
  }

  /** Following the parent leaves the output open, so that it is looked up again on mapping. */
  function TargetOutput(picked: Option<(Monitor, bool)>): Option<Output> {
    if picked.Some? && !picked.value.1 then Some(picked.value.0.output) else None
  }

  datatype Rules = Rules(openOnWorkspace: Option<Name>, openOnOutput: Option<Output>,
                         openMaximizedToEdges: Option<bool>, openFullscreen: Option<bool>)

  datatype ConfigureState =
    | NotConfigured(wantsFullscreen: Option<Option<Output>>, wantsMaximized: bool)
    | Configured(output: Option<Output>, workspaceName: Option<Name>, isPendingMaximized: bool)

  /** An unmapped toplevel, with its pending states. */
  datatype Toplevel = Toplevel(state: ConfigureState, fullscreen: bool, maximized: bool)

  const NEW := Toplevel(NotConfigured(None, false), false, false)

  datatype Request =
    | Maximize(desk: Desk)
    | Unmaximize(desk: Desk)
    | Fullscreen(desk: Desk, requested: Option<Output>)
    | Unfullscreen(desk: Desk)
    | InitialConfigure(desk: Desk, rules: Rules)

  function OnMaximize(t: Toplevel, desk: Desk): Toplevel {
    match t.state
    case NotConfigured(fs, _) => t.(state := NotConfigured(fs, true))
    case Configured(output, name, pending) =>
      var picked := desk.Pick(None, output);
      var target := Configured(TargetOutput(picked), name, pending);
      if desk.WorkspaceOn(picked, None).None? then t.(state := target)
      else t.(state := target.(isPendingMaximized := true), maximized := t.maximized || !t.fullscreen)
  }

  function OnUnmaximize(t: Toplevel, desk: Desk): Toplevel {
    match t.state
    case NotConfigured(fs, _) => t.(state := NotConfigured(fs, false))
    case Configured(output, name, pending) =>
      var picked := desk.Pick(desk.MonitorForWorkspace(name), output);
      var target := Configured(TargetOutput(picked), name, pending);
      if desk.WorkspaceOn(picked, name).None? then t.(state := target)
      else t.(state := target.(isPendingMaximized := false), maximized := false)
  }

  function OnFullscreen(t: Toplevel, desk: Desk, requested: Option<Output>): Toplevel {
    match t.state
    case NotConfigured(_, max) => t.(state := NotConfigured(Some(requested), max))
    case Configured(output, name, pending) =>
      var picked := desk.Pick(None, requested.OrElse(output));
      var target := Configured(TargetOutput(picked), name, pending);
      if desk.WorkspaceOn(picked, None).None? then t.(state := target)
      else t.(state := target, fullscreen := true, maximized := false)
  }

  function OnUnfullscreen(t: Toplevel, desk: Desk): Toplevel {
    match t.state
    case NotConfigured(_, max) => t.(state := NotConfigured(None, max))
    case Configured(output, name, pending) =>
      var picked := desk.Pick(desk.MonitorForWorkspace(name), output);
      var target := Configured(TargetOutput(picked), name, pending);
      if desk.WorkspaceOn(picked, name).None? then t.(state := target)
      else t.(state := target, fullscreen := false, maximized := t.maximized || pending)
  }

  function PickInitial(desk: Desk, rules: Rules, wantsFullscreen: Option<Option<Output>>): Option<(Monitor, bool)> {
    desk.Pick(desk.MonitorForWorkspace(rules.openOnWorkspace).OrElse(desk.MonitorForOutput(rules.openOnOutput)),
              wantsFullscreen.GetOr(None))
  }

  /** Rules win over the client's wishes. */
  function OnInitialConfigure(t: Toplevel, desk: Desk, rules: Rules): Toplevel {
    match t.state
    case Configured(_, _, _) => t
    case NotConfigured(wantsFullscreen, wantsMaximized) =>
      var picked := PickInitial(desk, rules, wantsFullscreen);
      var ws := desk.WorkspaceOn(picked, rules.openOnWorkspace);
      if ws.None? then t.(state := Configured(TargetOutput(picked), None, false))
      else
        var pending := rules.openMaximizedToEdges.GetOr(wantsMaximized);
        var fullscreen := rules.openFullscreen.GetOr(wantsFullscreen.Some?);
        Toplevel(Configured(TargetOutput(picked), ws.value.name, pending), t.fullscreen || fullscreen,
                 t.maximized || (pending && !fullscreen))
  }

  function Handle(t: Toplevel, r: Request): Toplevel {
    match r
    case Maximize(desk) => OnMaximize(t, desk)
    case Unmaximize(desk) => OnUnmaximize(t, desk)
    case Fullscreen(desk, requested) => OnFullscreen(t, desk, requested)
    case Unfullscreen(desk) => OnUnfullscreen(t, desk)
    case InitialConfigure(desk, rules) => OnInitialConfigure(t, desk, rules)
  }

  function Run(rs: seq<Request>): Toplevel {
    if rs == [] then NEW else Handle(Run(rs[..|rs| - 1]), rs[|rs| - 1])
  }

  /** Maximized is shown exactly when it is pending and not hidden by fullscreen; before configuring nothing is. */
  predicate Consistent(t: Toplevel) {
    match t.state
    case NotConfigured(_, _) => !t.fullscreen && !t.maximized
    case Configured(_, _, pending) => t.maximized <==> pending && !t.fullscreen
  }

  /** After any requests whatever, the toplevel is consistent, and never both maximized and fullscreen. */
  lemma {:induction false} RunIsConsistent(rs: seq<Request>)
    ensures Consistent(Run(rs)) && !(Run(rs).maximized && Run(rs).fullscreen)
  {
    if rs != [] {
      RunIsConsistent(rs[..|rs| - 1]);
    }
  }

  // When a request takes effect.

  /** The workspace name that a request on this toplevel insists on. */
  function NameFor(t: Toplevel, r: Request): Option<Name> {
    match r
    case Maximize(_) => None
    case Fullscreen(_, _) => None
    case InitialConfigure(_, rules) => rules.openOnWorkspace
    case _ => if t.state.Configured? then t.state.workspaceName else None
  }

  lemma WorkspaceFoundIff(desk: Desk, name: Option<Name>, given: Option<Monitor>, output: Option<Output>)
    requires desk.Valid()
    requires given.Some? ==> given.value in desk.monitors
    requires desk.MonitorForWorkspace(name).Some? ==> given == desk.MonitorForWorkspace(name)
    ensures desk.WorkspaceOn(desk.Pick(given, output), name).Some? <==> desk.HasWorkspace(name)
  {
    var picked := desk.Pick(given, output);
    if desk.monitors != [] {
      assert desk.ActiveMonitor().value in desk.monitors;
      assert picked.value.0 in desk.monitors;
    }
  }

  /** What the client wants: maximized, fullscreen. */
  datatype Wish = Wish(maximized: bool, fullscreen: bool)

  function Wanted(t: Toplevel): Wish {
    match t.state
    case NotConfigured(fs, max) => Wish(max, fs.Some?)
    case Configured(_, _, pending) => Wish(pending, t.fullscreen)
  }

  function AfterRequest(w: Wish, r: Request): Wish {
    match r
    case Maximize(_) => w.(maximized := true)
    case Unmaximize(_) => w.(maximized := false)
    case Fullscreen(_, _) => w.(fullscreen := true)
    case Unfullscreen(_) => w.(fullscreen := false)
    case InitialConfigure(_, rules) =>
      Wish(rules.openMaximizedToEdges.GetOr(w.maximized), rules.openFullscreen.GetOr(w.fullscreen))
  }

  /**
   * On a consistent toplevel a request does what it says exactly when it is a wish before the initial configure, or
   * the layout has a workspace for it; otherwise the pending states stay as they are, and an initial configure
   * forgets the wishes.
   */
  lemma HandledIff(t: Toplevel, r: Request)
    requires Consistent(t) && r.desk.Valid() && (r.InitialConfigure? ==> t.state.NotConfigured?)
    ensures Wanted(Handle(t, r)) ==
      if (t.state.NotConfigured? && !r.InitialConfigure?) || r.desk.HasWorkspace(NameFor(t, r)) then AfterRequest(Wanted(t), r)
      else if r.InitialConfigure? then Wish(false, false)
      else Wanted(t)
  {
    if t.state.NotConfigured? {
      if r.InitialConfigure? {
        var name := r.rules.openOnWorkspace;
        var given := r.desk.MonitorForWorkspace(name).OrElse(r.desk.MonitorForOutput(r.rules.openOnOutput));
        WorkspaceFoundIff(r.desk, name, given, t.state.wantsFullscreen.GetOr(None));
      }
    } else {
      match r {
        case Maximize(desk) => WorkspaceFoundIff(desk, None, None, t.state.output);
        case Fullscreen(desk, requested) => WorkspaceFoundIff(desk, None, None, requested.OrElse(t.state.output));
        case Unmaximize(desk) =>
          WorkspaceFoundIff(desk, t.state.workspaceName, desk.MonitorForWorkspace(t.state.workspaceName), t.state.output);
        case Unfullscreen(desk) =>
          WorkspaceFoundIff(desk, t.state.workspaceName, desk.MonitorForWorkspace(t.state.workspaceName), t.state.output);
      }
    }
  }

  // Which output and workspace a toplevel is configured for.

  ghost predicate HasOutput(desk: Desk, output: Option<Output>) {
    output.Some? && exists m | m in desk.monitors :: Some(m.output) == output
  }

  /** The named workspace is on some monitor. */
  ghost predicate HasNamed(desk: Desk, name: Option<Name>) {
    name.Some? && exists m | m in desk.monitors :: Workspace(name) in m.workspaces
  }

  ghost predicate NamedOn(desk: Desk, name: Option<Name>, output: Option<Output>) {
    exists m | m in desk.monitors :: Some(m.output) == output && Workspace(name) in m.workspaces
  }

  /** The wanted output if it is there; else the parent's, looked up again on mapping; else the active one. */
  ghost predicate GoesTo(desk: Desk, wanted: Option<Output>, target: Option<Output>) {
    if HasOutput(desk, wanted) then target == wanted
    else if HasOutput(desk, desk.parentOutput) then target == None
    else if desk.active < |desk.monitors| then target == Some(desk.monitors[desk.active].output)
    else target == None
  }

  lemma PickGoesTo(desk: Desk, wanted: Option<Output>)
    requires desk.Valid()
    ensures GoesTo(desk, wanted, TargetOutput(desk.Pick(None, wanted)))
  {
    if desk.MonitorForOutput(wanted).None? && wanted.Some? {
      assert !HasOutput(desk, wanted);
    }
  }

  lemma PickNamed(desk: Desk, name: Option<Name>, other: Option<Monitor>, wanted: Option<Output>)
    ensures desk.MonitorForWorkspace(name).Some? <==> HasNamed(desk, name)
    ensures HasNamed(desk, name) ==>
      NamedOn(desk, name, TargetOutput(desk.Pick(desk.MonitorForWorkspace(name).OrElse(other), wanted)))
  {
  }

  /**
   * The output that a request leaves a configured toplevel with: for fullscreen, the requested one, for the other
   * requests the one it had, as long as that is there; but to leave a state it goes where its named workspace is.
   */
  lemma RequestGoesTo(t: Toplevel, r: Request)
    requires t.state.Configured? && r.desk.Valid() && !r.InitialConfigure?
    ensures
      var after := Handle(t, r).state;
      && after.Configured? && after.workspaceName == t.state.workspaceName
      && match r
         case Maximize(desk) => GoesTo(desk, t.state.output, after.output)
         case Fullscreen(desk, requested) => GoesTo(desk, if requested.Some? then requested else t.state.output, after.output)
         case _ =>
           if HasNamed(r.desk, t.state.workspaceName) then NamedOn(r.desk, t.state.workspaceName, after.output)
           else GoesTo(r.desk, t.state.output, after.output)
  {
    PickGoesTo(r.desk, t.state.output);
    PickNamed(r.desk, t.state.workspaceName, None, t.state.output);
    if r.Fullscreen? {
      PickGoesTo(r.desk, r.requested.OrElse(t.state.output));
    }
  }

  /**
   * The initial configure puts the toplevel where the rules name a workspace, else on the rules' output, else where
   * the client wanted to be fullscreen; on that monitor, on the workspace named by the rules or the active one.
   */
  lemma InitialConfigureGoesTo(t: Toplevel, desk: Desk, rules: Rules)
    requires t.state.NotConfigured? && desk.Valid()
    ensures
      var after := OnInitialConfigure(t, desk, rules).state;
      && after.Configured?
      && (if HasNamed(desk, rules.openOnWorkspace) then NamedOn(desk, rules.openOnWorkspace, after.output)
          else if HasOutput(desk, rules.openOnOutput) then after.output == rules.openOnOutput
          else GoesTo(desk, if t.state.wantsFullscreen.Some? then t.state.wantsFullscreen.value else None, after.output))
      && (rules.openOnWorkspace.Some? ==>
            after.workspaceName == if HasNamed(desk, rules.openOnWorkspace) then rules.openOnWorkspace else None)
      && (rules.openOnWorkspace.None? && desk.monitors != [] ==>
            exists m | m in desk.monitors :: m.workspaces[m.active] == Workspace(after.workspaceName) &&
              (after.output.Some? ==> Some(m.output) == after.output))
  {
    var wanted := t.state.wantsFullscreen.GetOr(None);
    var byOutput := desk.MonitorForOutput(rules.openOnOutput);
    PickNamed(desk, rules.openOnWorkspace, byOutput, wanted);
    PickGoesTo(desk, wanted);
    var picked := PickInitial(desk, rules, t.state.wantsFullscreen);
    assert byOutput.Some? <==> HasOutput(desk, rules.openOnOutput);
    if desk.monitors != [] {
      assert desk.ActiveMonitor().value in desk.monitors;
      assert picked.Some? && picked.value.0 in desk.monitors;
    }
  }

  // Only the last wishes count.

  /** The last maximize-type request, else `init`. */
  function LastMaximized(rs: seq<Request>, init: bool): bool {
    if rs == [] then init
    else
      match rs[|rs| - 1]
      case Maximize(_) => true
      case Unmaximize(_) => false
      case _ => LastMaximized(rs[..|rs| - 1], init)
  }

  function LastFullscreen(rs: seq<Request>, init: bool): bool {
    if rs == [] then init
    else
      match rs[|rs| - 1]
      case Fullscreen(_, _) => true
      case Unfullscreen(_) => false
      case _ => LastFullscreen(rs[..|rs| - 1], init)
  }

  predicate NoStateRules(r: Request) {
    r.InitialConfigure? ==> r.rules.openMaximizedToEdges.None? && r.rules.openFullscreen.None?
  }

  /** Each request finds its workspace where it needs one, and the toplevel is configured once. */
  ghost predicate Served(rs: seq<Request>) {
    rs == [] ||
    (var before, r := rs[..|rs| - 1], rs[|rs| - 1];
     var t := Run(before);
     && Served(before)
     && r.desk.Valid()
     && NoStateRules(r)
     && (r.InitialConfigure? ==> t.state.NotConfigured?)
     && ((t.state.NotConfigured? && !r.InitialConfigure?) || r.desk.HasWorkspace(NameFor(t, r))))
  }

  /**
   * While a workspace is always found and no rule interferes, the state depends only on the last maximize-type and
   * the last fullscreen-type request, wherever among them the initial configure came.
   */
  lemma {:induction false} OnlyLastWishesCount(rs: seq<Request>)
    requires Served(rs)
    ensures Wanted(Run(rs)) == Wish(LastMaximized(rs, false), LastFullscreen(rs, false))
    ensures Run(rs).state.Configured? ==>
      Run(rs).fullscreen == LastFullscreen(rs, false) &&
      Run(rs).maximized == (LastMaximized(rs, false) && !LastFullscreen(rs, false))
  {
    RunIsConsistent(rs);
    if rs != [] {
      var before := rs[..|rs| - 1];
      OnlyLastWishesCount(before);
      RunIsConsistent(before);
      HandledIff(Run(before), rs[|rs| - 1]);
    }
  }

  /** Once the named workspace of a toplevel is gone, unmaximizing it does nothing, although maximizing it did. */
  lemma GoneWorkspaceIgnoresUnmaximize(t: Toplevel, desk: Desk)
    requires Consistent(t) && desk.Valid() && desk.monitors != []
    requires t.state.Configured? && t.state.workspaceName.Some?
    requires forall m | m in desk.monitors :: Workspace(t.state.workspaceName) !in m.workspaces
    ensures Wanted(Handle(t, Unmaximize(desk))) == Wanted(t) && Wanted(Handle(t, Unfullscreen(desk))) == Wanted(t)
    ensures Wanted(Handle(t, Maximize(desk))).maximized && Wanted(Handle(t, Fullscreen(desk, None))).fullscreen
  {
    HandledIff(t, Unmaximize(desk));
    HandledIff(t, Unfullscreen(desk));
    HandledIff(t, Maximize(desk));
    HandledIff(t, Fullscreen(desk, None));
  }

  /**
   * An initial configure whose rules name a workspace that no monitor has drops every wish, even those that the
   * same rules ask for.
   */
  lemma UnknownWorkspaceDropsWishes(t: Toplevel, desk: Desk, rules: Rules)
    requires Consistent(t) && desk.Valid() && t.state.NotConfigured?
    requires rules.openOnWorkspace.Some? && forall m | m in desk.monitors :: Workspace(rules.openOnWorkspace) !in m.workspaces
    ensures Wanted(Handle(t, InitialConfigure(desk, rules))) == Wish(false, false)
    ensures Handle(t, InitialConfigure(desk, rules)).state.Configured?
  {
    HandledIff(t, InitialConfigure(desk, rules));
  }

  /** The last wish was to be maximized, and on a desk with a monitor the initial configure left nothing of it. */
  ghost predicate WishDropped(rs: seq<Request>) {
    && (forall i | 0 <= i < |rs| :: rs[i].desk.Valid() && rs[i].desk.monitors != [])
    && LastMaximized(rs, false)
    && Run(rs).state.Configured?
    && Wanted(Run(rs)) == Wish(false, false)
  }

  lemma WishesCanBeDropped()
    ensures exists rs: seq<Request> :: WishDropped(rs)
  {
    var monitor := Monitor(0, [Workspace(None)], 0);
    var desk := Desk([monitor], 0, None);
    var rules := Rules(Some(7), None, None, None);
    var first, second := Maximize(desk), InitialConfigure(desk, rules);
    var t := Handle(NEW, first);
    UnknownWorkspaceDropsWishes(t, desk, rules);
    assert [first][..0] == [];
    assert [first, second][..1] == [first];
    assert LastMaximized([first], false) && Run([first]) == t;
    assert WishDropped([first, second]);
  }
}
