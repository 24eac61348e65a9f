/** The request handlers for an unmapped toplevel, as they change its entry and its pending states in place. */
module PendingToplevelState {
  import opened Prelude
  import opened PendingModel

  class PendingToplevel {
    var state: ConfigureState
    // The toplevel states that the next configure will carry.
    var fullscreen: bool
    var maximized: bool
    var configuresSent: nat

    function View(): Toplevel
      reads this
    {
      Toplevel(state, fullscreen, maximized)
    }

    constructor ()
      ensures View() == NEW && configuresSent == 0
    {
      state, fullscreen, maximized, configuresSent := NotConfigured(None, false), false, false, 0;
    }

    method MaximizeRequest(desk: Desk)
      requires Consistent(View())
      modifies this
      ensures View() == Handle(old(View()), Maximize(desk)) && Consistent(View())
      ensures configuresSent == old(configuresSent) + (if old(state).Configured? then 1 else 0)
    {
      match state {
        case NotConfigured(wantsFullscreen, _) =>
          state := NotConfigured(wantsFullscreen, true);
        case Configured(output, _, _) =>
          var picked := desk.Pick(None, output);
          state := state.(output := TargetOutput(picked));
          var ws := desk.WorkspaceOn(picked, None);
          if ws.Some? {
            state := state.(isPendingMaximized := true);
            if !fullscreen {
              maximized := true;
            }
          }
          configuresSent := configuresSent + 1;
      }
    }

    method UnmaximizeRequest(desk: Desk)
      requires Consistent(View())
      modifies this
      ensures View() == Handle(old(View()), Unmaximize(desk)) && Consistent(View())
      ensures configuresSent == old(configuresSent) + (if old(state).Configured? then 1 else 0)
    {
      match state {
        case NotConfigured(wantsFullscreen, _) =>
          state := NotConfigured(wantsFullscreen, false);
        case Configured(output, workspaceName, _) =>
          var picked := desk.Pick(desk.MonitorForWorkspace(workspaceName), output);
          state := state.(output := TargetOutput(picked));
          var ws := desk.WorkspaceOn(picked, workspaceName);
          if ws.Some? {
            state := state.(isPendingMaximized := false);
            maximized := false;
          }
          configuresSent := configuresSent + 1;
      }
    }

    method FullscreenRequest(desk: Desk, requested: Option<Output>)
      requires Consistent(View())
      modifies this
      ensures View() == Handle(old(View()), Fullscreen(desk, requested)) && Consistent(View())
      ensures configuresSent == old(configuresSent) + (if old(state).Configured? then 1 else 0)
    {
      match state {
        case NotConfigured(_, wantsMaximized) =>
          state := NotConfigured(Some(requested), wantsMaximized);
        case Configured(output, _, _) =>
          var picked := desk.Pick(None, requested.OrElse(output));
          state := state.(output := TargetOutput(picked));
          var ws := desk.WorkspaceOn(picked, None);
          if ws.Some? {
            fullscreen := true;
            maximized := false;
          }
          configuresSent := configuresSent + 1;
      }
    }

    method UnfullscreenRequest(desk: Desk)
      requires Consistent(View())
      modifies this
      ensures View() == Handle(old(View()), Unfullscreen(desk)) && Consistent(View())
      ensures configuresSent == old(configuresSent) + (if old(state).Configured? then 1 else 0)
    {
      match state {
        case NotConfigured(_, wantsMaximized) =>
          state := NotConfigured(None, wantsMaximized);
        case Configured(output, workspaceName, _) =>
          var picked := desk.Pick(desk.MonitorForWorkspace(workspaceName), output);
          state := state.(output := TargetOutput(picked));
          var ws := desk.WorkspaceOn(picked, workspaceName);
          if ws.Some? {
            fullscreen := false;
            if state.isPendingMaximized {
              maximized := true;
            }
          }
          configuresSent := configuresSent + 1;
      }
    }

    /** Sent once; a toplevel that is configured already is left alone. */
    method SendInitialConfigure(desk: Desk, rules: Rules)
      requires Consistent(View())
      modifies this
      ensures View() == Handle(old(View()), InitialConfigure(desk, rules)) && Consistent(View())
      ensures configuresSent == old(configuresSent) + (if old(state).NotConfigured? then 1 else 0)
    {
      if state.Configured? {
        return;
      }
      var wantsFullscreen, wantsMaximized := state.wantsFullscreen, state.wantsMaximized;
      var picked := PickInitial(desk, rules, wantsFullscreen);
      var ws := desk.WorkspaceOn(picked, rules.openOnWorkspace);
      var isPendingMaximized := false;
      if ws.Some? {
        isPendingMaximized := (wantsMaximized && rules.openMaximizedToEdges.None?) || rules.openMaximizedToEdges == Some(true);
        if (wantsFullscreen.Some? && rules.openFullscreen.None?) || rules.openFullscreen == Some(true) {
          fullscreen := true;
        } else if isPendingMaximized {
          maximized := true;
        }
      }
      state := Configured(TargetOutput(picked), if ws.Some? then ws.value.name else None, isPendingMaximized);
      configuresSent := configuresSent + 1;
    }
  }
}
