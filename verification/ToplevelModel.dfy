/**
 * The life of toplevel surfaces: mapping and unmapping by commits, destruction of the surface and of its toplevel
 * role in either order, and the pre-commit hooks that make commits wait for client buffers.
 */
module ToplevelModel {
  import opened Prelude

  type Surface = nat
  type HookId = nat

  datatype Unmapped = NotConfigured | Configured

  /** The error and panic arms of the handlers. */
  datatype Trouble = HookForDeadSurface | DuplicateHook | MissingHook | MissingToplevel | ExistingToplevel

  /**
   * `born`, `alive` and `toplevels` say which objects the clients have; `attached` which hooks sit on which surface.
   * `layout` holds the hook that each mapped window owns.
   */
  datatype World = World(
    born: set<Surface>,
    alive: set<Surface>,
    toplevels: set<Surface>,
    unmapped: map<Surface, Unmapped>,
    layout: map<Surface, HookId>,
    defaultHooks: map<Surface, HookId>,
    attached: set<(Surface, HookId)>,
    nextHook: HookId,
    rootSurface: map<Surface, Surface>,
    trouble: seq<Trouble>)

  const INITIAL := World({}, {}, {}, map[], map[], map[], {}, 0, map[], [])

  datatype Event =
    | NewSurface(surface: Surface)
    | NewToplevel(surface: Surface)
    | Commit(surface: Surface, root: Surface, syncSubsurface: bool, hasBuffer: bool)
    | InitialConfigure(surface: Surface)
    | ToplevelDestroyed(surface: Surface)
    | SurfaceDestroyed(surface: Surface)

  function Report(w: World, t: Trouble): World {
    w.(trouble := w.trouble + [t])
  }

  function AddDefaultHook(w: World, s: Surface): World {
    if s !in w.alive then Report(w, HookForDeadSurface)
    else
      var hooked := w.(attached := w.attached + {(s, w.nextHook)},
                       defaultHooks := w.defaultHooks[s := w.nextHook],
                       nextHook := w.nextHook + 1);
      if s in w.defaultHooks then
        Report(hooked.(attached := hooked.attached - {(s, w.defaultHooks[s])}), DuplicateHook)
      else hooked
  }

  function DropDefaultHook(w: World, s: Surface): World
    requires s in w.defaultHooks
  {
    w.(attached := w.attached - {(s, w.defaultHooks[s])}, defaultHooks := w.defaultHooks - {s})
  }

  function RemoveDefaultHook(w: World, s: Surface): World {
    if s in w.defaultHooks then DropDefaultHook(w, s) else Report(w, MissingHook)
  }

  /** A window owns its hook, so leaving the layout detaches it. */
  function RemoveWindow(w: World, s: Surface): World
    requires s in w.layout
  {
    w.(attached := w.attached - {(s, w.layout[s])}, layout := w.layout - {s})
  }

  function AddWindow(w: World, s: Surface): World {
    w.(attached := w.attached + {(s, w.nextHook)}, layout := w.layout[s := w.nextHook], nextHook := w.nextHook + 1)
  }

  function AfterNewToplevel(w: World, s: Surface): World {
    var added := w.(toplevels := w.toplevels + {s}, unmapped := w.unmapped[s := NotConfigured]);
    if s in w.unmapped then Report(added, ExistingToplevel) else added
  }

  function MapToplevel(w: World, s: Surface): World {
    AddWindow(RemoveDefaultHook(w.(unmapped := w.unmapped - {s}), s), s)
  }

  function UnmapToplevel(w: World, s: Surface): World
    requires s in w.layout
  {
    var hooked := AddDefaultHook(RemoveWindow(w, s), s);
    hooked.(unmapped := hooked.unmapped[s := NotConfigured])
  }

  function AfterCommit(w: World, s: Surface, root: Surface, syncSubsurface: bool, hasBuffer: bool): World {
    var cached := w.(rootSurface := w.rootSurface[s := root]);
    if syncSubsurface || s != root then cached
    else if s in w.unmapped then if hasBuffer then MapToplevel(cached, s) else cached
    else if s in w.layout && !hasBuffer then UnmapToplevel(cached, s)
    else cached
  }

  /** The initial configure is sent from an idle callback, if the toplevel still waits for it by then. */
  function AfterInitialConfigure(w: World, s: Surface): World {
    if s in w.unmapped && w.unmapped[s] == NotConfigured then w.(unmapped := w.unmapped[s := Configured]) else w
  }

  function AfterToplevelDestroyed(w: World, s: Surface): World {
    var gone := w.(toplevels := w.toplevels - {s});
    if s in w.unmapped then gone.(unmapped := w.unmapped - {s})
    else if s !in w.layout then Report(gone, MissingToplevel)
    else
      var removed := RemoveWindow(gone, s);
      if s in w.alive then AddDefaultHook(removed, s) else removed
  }

  function Uncached(roots: map<Surface, Surface>, s: Surface): map<Surface, Surface> {
    map k | k in roots && k != s && roots[k] != s :: roots[k]
  }

  function AfterSurfaceDestroyed(w: World, s: Surface): World {
    var dead := w.(alive := w.alive - {s}, rootSurface := Uncached(w.rootSurface, s));
    if s in w.defaultHooks then DropDefaultHook(dead, s) else dead
  }

  function Step(w: World, e: Event): World {
    match e
    case NewSurface(s) => AddDefaultHook(w.(born := w.born + {s}, alive := w.alive + {s}), s)
    case NewToplevel(s) => AfterNewToplevel(w, s)
    case Commit(s, root, sync, hasBuffer) => AfterCommit(w, s, root, sync, hasBuffer)
    case InitialConfigure(s) => AfterInitialConfigure(w, s)
    case ToplevelDestroyed(s) => AfterToplevelDestroyed(w, s)
    case SurfaceDestroyed(s) => AfterSurfaceDestroyed(w, s)
  }

  /** What the protocol lets clients do: surfaces are new once, and a toplevel is the only role of its surface. */
  predicate Possible(w: World, e: Event) {
    match e
    case NewSurface(s) => s !in w.born
    case NewToplevel(s) => s in w.alive && s !in w.toplevels
    case Commit(s, root, sync, _) => s in w.alive && root in w.alive && (s in w.toplevels ==> root == s && !sync)
    case InitialConfigure(_) => true
    case ToplevelDestroyed(s) => s in w.toplevels
    case SurfaceDestroyed(s) => s in w.alive
  }

  ghost predicate Runs(w: World, es: seq<Event>)
    decreases |es|
  {
    es == [] || (Runs(w, es[..|es| - 1]) && Possible(Run(w, es[..|es| - 1]), es[|es| - 1]))
  }

  function Run(w: World, es: seq<Event>): World
    decreases |es|
  {
    if es == [] then w else Step(Run(w, es[..|es| - 1]), es[|es| - 1])
  }

  // The invariant.

  predicate OwnsHook(w: World, s: Surface, h: HookId) {
    (s in w.defaultHooks && w.defaultHooks[s] == h) || (s in w.layout && w.layout[s] == h)
  }

  /** Where the surface stands and which hook it has: its window's when mapped, else the default one while it lives. */
  predicate SurfaceOk(w: World, s: Surface) {
    && (s in w.alive || s in w.toplevels ==> s in w.born)
    && (s in w.toplevels <==> s in w.unmapped || s in w.layout)
    && !(s in w.unmapped && s in w.layout)
    && (s in w.defaultHooks <==> s in w.alive && s !in w.layout)
  }

  predicate HookOk(w: World, s: Surface, h: HookId) {
    && ((s, h) in w.attached <==> OwnsHook(w, s, h))
    && ((s, h) in w.attached ==> h < w.nextHook)
  }

  ghost predicate Inv(w: World) {
    && (forall s: Surface :: SurfaceOk(w, s))
    && (forall s: Surface, h: HookId :: HookOk(w, s, h))
    && (forall k | k in w.rootSurface :: k in w.alive && w.rootSurface[k] in w.alive)
    && w.trouble == []
  }

  lemma NewSurfaceKeeps(w: World, s: Surface)
    requires Inv(w) && Possible(w, NewSurface(s))
    ensures Inv(Step(w, NewSurface(s)))
  {
    var v := Step(w, NewSurface(s));
    assert SurfaceOk(w, s);
    forall t: Surface ensures SurfaceOk(v, t) {
      assert SurfaceOk(w, t);
    }
    forall t: Surface, h: HookId ensures HookOk(v, t, h) {
      assert HookOk(w, t, h);
    }
  }

  lemma NewToplevelKeeps(w: World, s: Surface)
    requires Inv(w) && Possible(w, NewToplevel(s))
    ensures Inv(Step(w, NewToplevel(s)))
  {
    var v := Step(w, NewToplevel(s));
    assert SurfaceOk(w, s);
    forall t: Surface ensures SurfaceOk(v, t) {
      assert SurfaceOk(w, t);
    }
    forall t: Surface, h: HookId ensures HookOk(v, t, h) {
      assert HookOk(w, t, h);
    }
  }

  lemma MapKeeps(w: World, s: Surface)
    requires Inv(w) && s in w.alive && s in w.unmapped
    ensures Inv(MapToplevel(w, s))
  {
    var v := MapToplevel(w, s);
    assert SurfaceOk(w, s);
    forall t: Surface ensures SurfaceOk(v, t) {
      assert SurfaceOk(w, t);
    }
    forall t: Surface, h: HookId ensures HookOk(v, t, h) {
      assert HookOk(w, t, h) && HookOk(w, s, h);
    }
  }

  lemma UnmapKeeps(w: World, s: Surface)
    requires Inv(w) && s in w.alive && s in w.layout
    ensures Inv(UnmapToplevel(w, s))
  {
    var v := UnmapToplevel(w, s);
    assert SurfaceOk(w, s);
    forall t: Surface ensures SurfaceOk(v, t) {
      assert SurfaceOk(w, t);
    }
    forall t: Surface, h: HookId ensures HookOk(v, t, h) {
      assert HookOk(w, t, h) && HookOk(w, s, h);
    }
  }

  lemma CacheKeeps(w: World, s: Surface, root: Surface)
    requires Inv(w) && s in w.alive && root in w.alive
    ensures Inv(w.(rootSurface := w.rootSurface[s := root]))
  {
    var v := w.(rootSurface := w.rootSurface[s := root]);
    forall t: Surface ensures SurfaceOk(v, t) {
      assert SurfaceOk(w, t);
    }
    forall t: Surface, h: HookId ensures HookOk(v, t, h) {
      assert HookOk(w, t, h);
    }
  }

  lemma CommitKeeps(w: World, s: Surface, root: Surface, sync: bool, hasBuffer: bool)
    requires Inv(w) && Possible(w, Commit(s, root, sync, hasBuffer))
    ensures Inv(Step(w, Commit(s, root, sync, hasBuffer)))
  {
    CacheKeeps(w, s, root);
    var cached := w.(rootSurface := w.rootSurface[s := root]);
    if !sync && s == root {
      if s in w.unmapped {
        if hasBuffer {
          MapKeeps(cached, s);
        }
      } else if s in w.layout && !hasBuffer {
        UnmapKeeps(cached, s);
      }
    }
  }

  lemma InitialConfigureKeeps(w: World, s: Surface)
    requires Inv(w)
    ensures Inv(AfterInitialConfigure(w, s))
  {
    var v := AfterInitialConfigure(w, s);
    forall t: Surface ensures SurfaceOk(v, t) {
      assert SurfaceOk(w, t);
    }
    forall t: Surface, h: HookId ensures HookOk(v, t, h) {
      assert HookOk(w, t, h);
    }
  }

  lemma ToplevelDestroyedKeeps(w: World, s: Surface)
    requires Inv(w) && s in w.toplevels
    ensures Inv(AfterToplevelDestroyed(w, s))
  {
    var v := AfterToplevelDestroyed(w, s);
    assert SurfaceOk(w, s);
    forall t: Surface ensures SurfaceOk(v, t) {
      assert SurfaceOk(w, t);
    }
    forall t: Surface, h: HookId ensures HookOk(v, t, h) {
      assert HookOk(w, t, h) && HookOk(w, s, h);
    }
  }

  lemma SurfaceDestroyedKeeps(w: World, s: Surface)
    requires Inv(w) && s in w.alive
    ensures Inv(AfterSurfaceDestroyed(w, s))
  {
    var v := AfterSurfaceDestroyed(w, s);
    assert SurfaceOk(w, s);
    forall t: Surface ensures SurfaceOk(v, t) {
      assert SurfaceOk(w, t);
    }
    forall t: Surface, h: HookId ensures HookOk(v, t, h) {
      assert HookOk(w, t, h) && HookOk(w, s, h);
    }
  }

  lemma StepKeepsInv(w: World, e: Event)
    requires Inv(w) && Possible(w, e)
    ensures Inv(Step(w, e))
  {
    match e {
      case NewSurface(s) => NewSurfaceKeeps(w, s);
      case NewToplevel(s) => NewToplevelKeeps(w, s);
      case Commit(s, root, sync, hasBuffer) => CommitKeeps(w, s, root, sync, hasBuffer);
      case InitialConfigure(s) => InitialConfigureKeeps(w, s);
      case ToplevelDestroyed(s) => ToplevelDestroyedKeeps(w, s);
      case SurfaceDestroyed(s) => SurfaceDestroyedKeeps(w, s);
    }
  }

  lemma {:induction false} RunKeepsInv(w: World, es: seq<Event>)
    requires Inv(w) && Runs(w, es)
    ensures Inv(Run(w, es))
  {
    if es != [] {
      RunKeepsInv(w, es[..|es| - 1]);
      StepKeepsInv(Run(w, es[..|es| - 1]), es[|es| - 1]);
    }
  }

  // Main results.

  /** Every live toplevel is either waiting to be mapped or in the layout, never both, and nothing else is. */
  lemma ToplevelsAreSplit(es: seq<Event>)
    requires Runs(INITIAL, es)
    ensures
      var w := Run(INITIAL, es);
      w.unmapped.Keys + w.layout.Keys == w.toplevels && w.unmapped.Keys !! w.layout.Keys
  {
    RunKeepsInv(INITIAL, es);
    var w := Run(INITIAL, es);
    forall s: Surface ensures s in w.toplevels <==> s in w.unmapped.Keys + w.layout.Keys {
      assert SurfaceOk(w, s);
    }
    forall s | s in w.unmapped ensures s !in w.layout {
      assert SurfaceOk(w, s);
    }
  }

  function HooksOn(w: World, s: Surface): set<HookId> {
    set p | p in w.attached && p.0 == s :: p.1
  }

  /**
   * Every live surface has exactly one buffer hook, its window's when it is mapped and the default one otherwise;
   * a dead surface keeps at most its window's until its toplevel goes too, so no hook leaks.
   */
  lemma OneHookPerSurface(es: seq<Event>, s: Surface)
    requires Runs(INITIAL, es)
    ensures
      var w := Run(INITIAL, es);
      if s in w.layout then s in w.toplevels && HooksOn(w, s) == {w.layout[s]}
      else if s in w.alive then s in w.defaultHooks && HooksOn(w, s) == {w.defaultHooks[s]}
      else s !in w.defaultHooks && HooksOn(w, s) == {}
  {
    RunKeepsInv(INITIAL, es);
    var w := Run(INITIAL, es);
    assert SurfaceOk(w, s);
    forall h: HookId ensures h in HooksOn(w, s) <==> OwnsHook(w, s, h) {
      assert HookOk(w, s, h);
      assert h in HooksOn(w, s) <==> (s, h) in w.attached;
    }
  }

  /** No error or panic arm is ever taken, and the root surface cache only knows live surfaces. */
  lemma NoTroubleEver(es: seq<Event>)
    requires Runs(INITIAL, es)
    ensures
      var w := Run(INITIAL, es);
      w.trouble == [] && forall k | k in w.rootSurface :: k in w.alive && w.rootSurface[k] in w.alive
  {
    RunKeepsInv(INITIAL, es);
  }

  // Where a toplevel is, by what its client did last.

  /** Whether the last commit of the toplevel on `s` left a buffer attached; none if it has not been committed. */
  function LastCommit(es: seq<Event>, s: Surface): Option<bool> {
    if es == [] then None
    else
      match es[|es| - 1]
      case Commit(t, root, sync, hasBuffer) =>
        if t == s && root == s && !sync then Some(hasBuffer) else LastCommit(es[..|es| - 1], s)
      case NewToplevel(t) => if t == s then None else LastCommit(es[..|es| - 1], s)
      case _ => LastCommit(es[..|es| - 1], s)
  }

  /** The initial configure has been sent since the toplevel on `s` was new or last committed without a buffer while mapped. */
  function ConfiguredSince(es: seq<Event>, s: Surface): bool {
    if es == [] then false
    else
      var before := es[..|es| - 1];
      match es[|es| - 1]
      case InitialConfigure(t) => t == s || ConfiguredSince(before, s)
      case NewToplevel(t) => t != s && ConfiguredSince(before, s)
      case Commit(t, root, sync, hasBuffer) =>
        if t == s && root == s && !sync && LastCommit(before, s) == Some(true) then false else ConfiguredSince(before, s)
      case _ => ConfiguredSince(before, s)
  }

  /**
   * A toplevel is in the layout exactly when its last commit left a buffer attached, and waits unmapped otherwise;
   * then it is configured exactly when the initial configure was sent since it began to wait.
   */
  lemma {:induction false} MappedIffBuffered(es: seq<Event>, s: Surface)
    requires Runs(INITIAL, es) && s in Run(INITIAL, es).toplevels
    ensures
      var w := Run(INITIAL, es);
      && (s in w.layout <==> LastCommit(es, s) == Some(true))
      && (s in w.unmapped <==> LastCommit(es, s) != Some(true))
      && (s in w.unmapped ==> (w.unmapped[s] == Configured <==> ConfiguredSince(es, s)))
  {
    RunKeepsInv(INITIAL, es);
    assert SurfaceOk(Run(INITIAL, es), s);
    if es != [] {
      var before := es[..|es| - 1];
      RunKeepsInv(INITIAL, before);
      assert SurfaceOk(Run(INITIAL, before), s);
      if s in Run(INITIAL, before).toplevels {
        MappedIffBuffered(before, s);
      }
      var w, e := Run(INITIAL, before), es[|es| - 1];
      if e.Commit? {
        CommitPlaces(w, e, s);
      } else if e.NewToplevel? {
        NewRolePlaces(w, e.surface, s);
      } else if e.ToplevelDestroyed? {
        EndOfRolePlaces(w, e.surface, s);
      } else {
        OthersKeepPlaces(w, e, s);
      }
    }
  }

  /** Where a commit of a toplevel puts it. */
  ghost predicate PlacedByCommit(w: World, w': World, s: Surface, hasBuffer: bool) {
    if hasBuffer then s in w'.layout && s !in w'.unmapped
    else s !in w'.layout && s in w'.unmapped &&
         if s in w.layout then w'.unmapped[s] == NotConfigured else s in w.unmapped && w'.unmapped[s] == w.unmapped[s]
  }

  lemma CommitPlaces(w: World, e: Event, s: Surface)
    requires Inv(w) && e.Commit? && Possible(w, e) && s in Step(w, e).toplevels
    ensures s in w.toplevels
    ensures if e.surface == s then PlacedByCommit(w, Step(w, e), s, e.hasBuffer) else SamePlace(w, Step(w, e), s)
  {
    assert SurfaceOk(w, s) && SurfaceOk(w, e.surface);
  }

  lemma NewRolePlaces(w: World, t: Surface, s: Surface)
    requires Inv(w) && Possible(w, NewToplevel(t)) && s in Step(w, NewToplevel(t)).toplevels
    ensures
      var w' := Step(w, NewToplevel(t));
      if s == t then s !in w'.layout && s in w'.unmapped && w'.unmapped[s] == NotConfigured
      else s in w.toplevels && SamePlace(w, w', s)
  {
    assert SurfaceOk(w, s);
  }

  lemma EndOfRolePlaces(w: World, t: Surface, s: Surface)
    requires Inv(w) && t in w.toplevels && s in AfterToplevelDestroyed(w, t).toplevels
    ensures s in w.toplevels && SamePlace(w, AfterToplevelDestroyed(w, t), s)
  {
    assert SurfaceOk(w, t);
  }

  lemma OthersKeepPlaces(w: World, e: Event, s: Surface)
    requires e.NewSurface? || e.SurfaceDestroyed? || e.InitialConfigure?
    ensures Step(w, e).toplevels == w.toplevels
    ensures (s in Step(w, e).layout <==> s in w.layout) && (s in Step(w, e).unmapped <==> s in w.unmapped)
    ensures s in w.unmapped ==> Step(w, e).unmapped[s] == if e == InitialConfigure(s) then Configured else w.unmapped[s]
  {
  }

  ghost predicate SamePlace(w: World, w': World, s: Surface) {
    && (s in w'.layout <==> s in w.layout) && (s in w'.unmapped <==> s in w.unmapped)
    && (s in w.unmapped && s in w'.unmapped ==> w'.unmapped[s] == w.unmapped[s])
  }

  /** A commit leaves the places and the hooks of all other surfaces alone. */
  lemma CommitLeavesOthers(w: World, e: Event, s: Surface)
    requires Inv(w) && e.Commit? && Possible(w, e) && s != e.surface
    ensures SamePlace(w, Step(w, e), s) && HooksOn(Step(w, e), s) == HooksOn(w, s)
    ensures s in w.layout ==> Step(w, e).layout[s] == w.layout[s]
  {
    assert SurfaceOk(w, e.surface);
    var w' := Step(w, e);
    forall h: HookId ensures (s, h) in w'.attached <==> (s, h) in w.attached {
      assert HookOk(w, s, h);
    }
    forall h: HookId ensures h in HooksOn(w', s) <==> h in HooksOn(w, s) {
      assert h in HooksOn(w', s) <==> (s, h) in w'.attached;
      assert h in HooksOn(w, s) <==> (s, h) in w.attached;
    }
  }

  /** The topmost ancestor named by the last commit of `s`. */
  function LastRoot(es: seq<Event>, s: Surface): Option<Surface> {
    if es == [] then None
    else
      match es[|es| - 1]
      case Commit(t, root, _, _) => if t == s then Some(root) else LastRoot(es[..|es| - 1], s)
      case _ => LastRoot(es[..|es| - 1], s)
  }

  /** Surfaces are only committed, or named as ancestors, once they are born. */
  lemma {:induction false} RootsAreBorn(es: seq<Event>, s: Surface)
    requires Runs(INITIAL, es)
    ensures LastRoot(es, s).Some? ==> s in Run(INITIAL, es).born && LastRoot(es, s).value in Run(INITIAL, es).born
  {
    RunKeepsInv(INITIAL, es);
    if es != [] {
      var before := es[..|es| - 1];
      RootsAreBorn(before, s);
      RunKeepsInv(INITIAL, before);
      var e := es[|es| - 1];
      if e.Commit? {
        assert SurfaceOk(Run(INITIAL, before), e.surface) && SurfaceOk(Run(INITIAL, before), e.root);
      }
    }
  }

  /** The cache holds `root` for `s` exactly as long as both live. */
  predicate CachedWhileAlive(w: World, s: Surface, root: Option<Surface>) {
    && (s in w.rootSurface <==> root.Some? && s in w.alive && root.value in w.alive)
    && (s in w.rootSurface ==> Some(w.rootSurface[s]) == root)
  }

  lemma CommitCaches(w: World, e: Event)
    requires e.Commit?
    ensures Step(w, e).rootSurface == w.rootSurface[e.surface := e.root] && Step(w, e).alive == w.alive
  {
  }

  lemma OthersKeepCache(w: World, e: Event)
    requires !e.Commit? && !e.SurfaceDestroyed?
    ensures Step(w, e).rootSurface == w.rootSurface
    ensures Step(w, e).alive == if e.NewSurface? then w.alive + {e.surface} else w.alive
  {
  }

  lemma DestroyingUncaches(w: World, e: Event, s: Surface, root: Option<Surface>)
    requires e.SurfaceDestroyed? && CachedWhileAlive(w, s, root)
    ensures CachedWhileAlive(Step(w, e), s, root)
  {
    assert Step(w, e).rootSurface == Uncached(w.rootSurface, e.surface);
  }

  /** The root cache holds exactly the ancestors of the last commits, as long as both surfaces live. */
  lemma {:induction false} CachedRootIsLast(es: seq<Event>, s: Surface)
    requires Runs(INITIAL, es)
    ensures
      var w := Run(INITIAL, es);
      var root := LastRoot(es, s);
      && (s in w.rootSurface <==> root.Some? && s in w.alive && root.value in w.alive)
      && (s in w.rootSurface ==> Some(w.rootSurface[s]) == root)
  {
    if es != [] {
      var before, e := es[..|es| - 1], es[|es| - 1];
      RootsAreBorn(before, s);
      CachedRootIsLast(before, s);
      if e.Commit? {
        CommitCaches(Run(INITIAL, before), e);
      } else if e.SurfaceDestroyed? {
        DestroyingUncaches(Run(INITIAL, before), e, s, LastRoot(before, s));
      } else {
        OthersKeepCache(Run(INITIAL, before), e);
      }
    }
  }

  /** A surface and its toplevel can be destroyed in either order: only the hook counter can tell. */
  lemma DestructionOrdersAgree(w: World, s: Surface)
    requires Inv(w) && s in w.alive && s in w.toplevels
    ensures
      var roleFirst := Run(w, [ToplevelDestroyed(s), SurfaceDestroyed(s)]);
      var surfaceFirst := Run(w, [SurfaceDestroyed(s), ToplevelDestroyed(s)]);
      && Runs(w, [ToplevelDestroyed(s), SurfaceDestroyed(s)]) && Runs(w, [SurfaceDestroyed(s), ToplevelDestroyed(s)])
      && surfaceFirst == roleFirst.(nextHook := w.nextHook)
      && HooksOn(surfaceFirst, s) == {}
  {
    assert SurfaceOk(w, s);
    TwoSteps(w, ToplevelDestroyed(s), SurfaceDestroyed(s));
    TwoSteps(w, SurfaceDestroyed(s), ToplevelDestroyed(s));
    assert HookOk(w, s, w.nextHook);
    var roleFirst := AfterSurfaceDestroyed(AfterToplevelDestroyed(w, s), s);
    var surfaceFirst := AfterToplevelDestroyed(AfterSurfaceDestroyed(w, s), s);
    assert w.layout - {s} == roleFirst.layout == surfaceFirst.layout;
    assert w.defaultHooks - {s} == roleFirst.defaultHooks == surfaceFirst.defaultHooks;
    assert roleFirst.attached == surfaceFirst.attached;
    forall h: HookId ensures (s, h) !in surfaceFirst.attached {
      assert HookOk(w, s, h);
    }
  }

  lemma TwoSteps(w: World, a: Event, b: Event)
    ensures Run(w, [a, b]) == Step(Step(w, a), b)
    ensures Runs(w, [a, b]) <==> Possible(w, a) && Possible(Step(w, a), b)
  {
    assert [a, b][..1] == [a] && [a][..0] == [];
    assert Run(w, [a]) == Step(Run(w, []), a);
    assert Runs(w, [a]) <==> Runs(w, []) && Possible(Run(w, []), a);
    assert Runs(w, [a, b]) <==> Runs(w, [a]) && Possible(Run(w, [a]), b);
    assert Run(w, [a, b]) == Step(Run(w, [a]), b);
  }
}
