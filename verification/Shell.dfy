/** The surface handlers, as they change the state in place. */
module ShellState {
  import opened Prelude
  import opened ToplevelModel

  class Shell {
    var unmappedWindows: map<Surface, Unmapped>
    var layout: map<Surface, HookId>
    var dmabufPreCommitHook: map<Surface, HookId>
    var rootSurface: map<Surface, Surface>
    // What the compositor library keeps: live surfaces and the hooks on them.
    var born: set<Surface>
    var alive: set<Surface>
    var toplevels: set<Surface>
    var attached: set<(Surface, HookId)>
    var nextHook: HookId
    // The error and panic arms taken.
    var trouble: seq<Trouble>

    function State(): World
      reads this
    {
      World(born, alive, toplevels, unmappedWindows, layout, dmabufPreCommitHook, attached, nextHook, rootSurface, trouble)
    }

    constructor ()
      ensures State() == INITIAL && Inv(State())
    {
      unmappedWindows, layout, dmabufPreCommitHook, rootSurface := map[], map[], map[], map[];
      born, alive, toplevels, attached, nextHook, trouble := {}, {}, {}, {}, 0, [];
    }

    method AddDefaultDmabufPreCommitHook(s: Surface)
      modifies this
      ensures State() == AddDefaultHook(old(State()), s)
    {
      if s !in alive {
        trouble := trouble + [HookForDeadSurface];
        return;
      }
      var hook := nextHook;
      attached, nextHook := attached + {(s, hook)}, nextHook + 1;
      if s in dmabufPreCommitHook {
        trouble := trouble + [DuplicateHook];
        attached := attached - {(s, dmabufPreCommitHook[s])};
      }
      dmabufPreCommitHook := dmabufPreCommitHook[s := hook];
    }

    method RemoveDefaultDmabufPreCommitHook(s: Surface)
      modifies this
      ensures State() == RemoveDefaultHook(old(State()), s)
    {
      if s in dmabufPreCommitHook {
        attached := attached - {(s, dmabufPreCommitHook[s])};
        dmabufPreCommitHook := dmabufPreCommitHook - {s};
      } else {
        trouble := trouble + [MissingHook];
      }
    }

    method NewSurface(s: Surface)
      requires Inv(State()) && Possible(State(), Event.NewSurface(s))
      modifies this
      ensures State() == Step(old(State()), Event.NewSurface(s)) && Inv(State())
    {
      StepKeepsInv(State(), Event.NewSurface(s));
      born, alive := born + {s}, alive + {s};
      AddDefaultDmabufPreCommitHook(s);
    }

    method NewToplevel(s: Surface)
      requires Inv(State()) && Possible(State(), Event.NewToplevel(s))
      modifies this
      ensures State() == Step(old(State()), Event.NewToplevel(s)) && Inv(State())
    {
      StepKeepsInv(State(), Event.NewToplevel(s));
      var existing := s in unmappedWindows;
      toplevels := toplevels + {s};
      unmappedWindows := unmappedWindows[s := NotConfigured];
      assert SurfaceOk(old(State()), s);
      assert !existing;
    }

    /** A commit of `s`, whose topmost ancestor is `root`; `hasBuffer` says whether it leaves a buffer attached. */
    method Commit(s: Surface, root: Surface, syncSubsurface: bool, hasBuffer: bool) returns (needsConfigure: bool)
      requires Inv(State()) && Possible(State(), Event.Commit(s, root, syncSubsurface, hasBuffer))
      modifies this
      ensures State() == Step(old(State()), Event.Commit(s, root, syncSubsurface, hasBuffer)) && Inv(State())
      ensures needsConfigure <==> (s in unmappedWindows && s in old(unmappedWindows) && unmappedWindows[s] == NotConfigured
                                   && s == root && !syncSubsurface)
    {
      StepKeepsInv(State(), Event.Commit(s, root, syncSubsurface, hasBuffer));
      rootSurface := rootSurface[s := root];
      needsConfigure := false;
      if syncSubsurface {
        return;
      }
      if s == root {
        if s in unmappedWindows {
          if hasBuffer {
            unmappedWindows := unmappedWindows - {s};
            RemoveDefaultDmabufPreCommitHook(s);
            attached := attached + {(s, nextHook)};
            layout := layout[s := nextHook];
            nextHook := nextHook + 1;
            return;
          }
          needsConfigure := unmappedWindows[s] == NotConfigured;
          return;
        }
        if s in layout && !hasBuffer {
          attached := attached - {(s, layout[s])};
          layout := layout - {s};
          AddDefaultDmabufPreCommitHook(s);
          unmappedWindows := unmappedWindows[s := NotConfigured];
        }
      }
    }

    method SendInitialConfigure(s: Surface)
      requires Inv(State())
      modifies this
      ensures State() == Step(old(State()), Event.InitialConfigure(s)) && Inv(State())
    {
      StepKeepsInv(State(), Event.InitialConfigure(s));
      if s in unmappedWindows && unmappedWindows[s] == NotConfigured {
        unmappedWindows := unmappedWindows[s := Configured];
      }
    }

    /** The surface may already be gone. */
    method ToplevelDestroyed(s: Surface)
      requires Inv(State()) && Possible(State(), Event.ToplevelDestroyed(s))
      modifies this
      ensures State() == Step(old(State()), Event.ToplevelDestroyed(s)) && Inv(State())
    {
      StepKeepsInv(State(), Event.ToplevelDestroyed(s));
      assert SurfaceOk(State(), s);
      toplevels := toplevels - {s};
      if s in unmappedWindows {
        unmappedWindows := unmappedWindows - {s};
        return;
      }
      // The arm for a toplevel that is in neither place is dead.
      assert s in layout;
      attached := attached - {(s, layout[s])};
      layout := layout - {s};
      if s in alive {
        AddDefaultDmabufPreCommitHook(s);
      }
    }

    method SurfaceDestroyed(s: Surface)
      requires Inv(State()) && Possible(State(), Event.SurfaceDestroyed(s))
      modifies this
      ensures State() == Step(old(State()), Event.SurfaceDestroyed(s)) && Inv(State())
    {
      StepKeepsInv(State(), Event.SurfaceDestroyed(s));
      alive := alive - {s};
      rootSurface := map k | k in rootSurface && k != s && rootSurface[k] != s :: rootSurface[k];
      if s in dmabufPreCommitHook {
        attached := attached - {(s, dmabufPreCommitHook[s])};
        dmabufPreCommitHook := dmabufPreCommitHook - {s};
      }
    }
  }
}
