/**
 * What is under a point of an output. Hit-testing and rendering are two separately written priority chains over
 * the same elements; the main results say that input goes where the picture says it should.
 */
module HitTest {
  import opened Prelude

  type LayerId = nat
  type WindowId = nat

  datatype Point = Point(x: real, y: real)
  {
    function Plus(o: Point): Point {
      Point(x + o.x, y + o.y)
    }

    function Minus(o: Point): Point {
      Point(x - o.x, y - o.y)
    }

    function Downscale(zoom: real): Point
      requires zoom != 0.0
    {
      Point(x / zoom, y / zoom)
    }
  }

  datatype Rect = Rect(loc: Point, w: real, h: real)
  {
    predicate Contains(p: Point) {
      loc.x <= p.x < loc.x + w && loc.y <= p.y < loc.y + h
    }

    predicate Overlaps(o: Rect) {
      loc.x < o.loc.x + o.w && o.loc.x < loc.x + w && loc.y < o.loc.y + o.h && o.loc.y < loc.y + h
    }
  }

  datatype Part = Popup | Toplevel

  /** A surface of some surface tree and where it is. */
  datatype SurfaceAt = SurfaceAt(surface: SurfaceId, pos: Point)

  datatype WindowHit = WindowHit(window: WindowId, takesInput: bool)

  datatype LayerState = LayerState(layer: Layer, mapped: bool, backdropRule: bool, ignoresZones: bool, loc: Point)
  {
    predicate InBackdrop() {
      PlacedInBackdrop(layer, backdropRule, ignoresZones)
    }
  }

  function Row(first: real, pitch: real, i: nat): real {
    first + i as real * pitch
  }

  /**
   * How the workspaces of the output are arranged: still, or moving in a workspace switch (`switchIdx`) or under
   * the overview (`overviewZoom`). `overviewOpen` is the target, so closing the overview clears it before the zoom
   * has come back to 1.
   */
  datatype View = View(
    w: real,
    h: real,
    pixel: real,
    workspaces: nat,
    active: nat,
    fullscreenAbove: bool,
    switchIdx: Option<real>,
    overviewZoom: Option<real>,
    overviewOpen: bool)
  {
    ghost predicate Valid() {
      && w > 0.0 && h > 0.0 && pixel > 0.0
      && active < workspaces
      && (overviewZoom.Some? ==> 0.0 < overviewZoom.value)
      && (overviewOpen ==> overviewZoom.Some?)
    }

    function Zoom(): real {
      overviewZoom.GetOr(1.0)
    }

    /** Fullscreen windows cover the top layer only while the view is stationary. */
    predicate AboveTop() {
      switchIdx.None? && overviewZoom.None? && fullscreenAbove
    }

    function Gap(): real {
      var gap := h * 0.1 * Zoom();
      if gap < pixel then pixel else gap
    }

    function Width(): real {
      w * Zoom()
    }

    function Height(): real {
      h * Zoom()
    }

    /** From one workspace to the next. */
    function Pitch(): real {
      Height() + Gap()
    }

    /** Where the workspace is drawn. */
    function Geo(i: nat): Rect {
      var firstY := -switchIdx.GetOr(active as real) * Pitch();
      Rect(Point((w - Width()) / 2.0, Row(firstY + (h - Height()) / 2.0, Pitch(), i)), Width(), Height())
    }

    predicate Culled(i: nat) {
      !Geo(i).Overlaps(Rect(Point(0.0, 0.0), w, h))
    }

    /** A workspace takes input over the whole width of the output. */
    predicate UnderStrip(i: nat, p: Point) {
      Rect(Point(0.0, Geo(i).loc.y), w, Geo(i).h).Contains(p)
    }

    /** The first visible workspace from `i` on whose strip has the point. */
    function WorkspaceUnder(p: Point, i: nat): (found: Option<nat>)
      requires i <= workspaces
      ensures found.Some? ==> i <= found.value < workspaces && !Culled(found.value) && UnderStrip(found.value, p)
      ensures found.Some? ==> forall j | i <= j < found.value :: Culled(j) || !UnderStrip(j, p)
      ensures found.None? ==> forall j | i <= j < workspaces :: Culled(j) || !UnderStrip(j, p)
      decreases workspaces - i
    {
      if i == workspaces then None
      else if !Culled(i) && UnderStrip(i, p) then Some(i)
      else WorkspaceUnder(p, i + 1)
    }
  }

  /**
   * What is on an output. `layers` is in the layer map's order, topmost last. The functions answer what a surface
   * tree or the layout has at a point: `layerAt` relative to the layer surface, the others within the output.
   */
  datatype Screen = Screen(
    exitDialogOpen: bool,
    locked: bool,
    lockSurfaceAt: Option<Point -> Option<SurfaceAt>>,
    screenshotUiOpen: bool,
    mruOpen: bool,
    layers: seq<LayerId>,
    info: LayerId -> LayerState,
    layerAt: (LayerId, Part, Point) -> Option<SurfaceAt>,
    movedWindowAt: Point -> Option<WindowHit>,
    windowAt: Point -> Option<WindowHit>,
    hotCornerAt: Point -> bool)

  datatype Target =
    | OnLockSurface(at: SurfaceAt)
    | OnLayer(layer: LayerId, at: SurfaceAt)
    | OnWindow(hit: WindowHit)

  datatype Contents = Nothing | HotCorner | Has(target: Target)

  // Hit-testing.

  predicate MovesWithWorkspaces(layer: Layer) {
    layer == Background || layer == Bottom
  }

  /** The surface's answer once it is placed at `loc`. */
  function Probe(s: Screen, id: LayerId, part: Part, loc: Point, p: Point): Option<Target> {
    var at := s.layerAt(id, part, p.Minus(loc));
    if at.Some? then Some(OnLayer(id, SurfaceAt(at.value.surface, at.value.pos.Plus(loc)))) else None
  }

  function ProbeForInput(v: View, s: Screen, id: LayerId, part: Part, p: Point): Option<Target> {
    var info := s.info(id);
    if !info.mapped || info.InBackdrop() then None
    else if MovesWithWorkspaces(info.layer) then
      var ws := v.WorkspaceUnder(p, 0);
      if ws.Some? then Probe(s, id, part, info.loc.Plus(v.Geo(ws.value).loc), p) else None
    else Probe(s, id, part, info.loc, p)
  }

  /** The topmost surface of the layer that accepts the point. */
  function LayerUnder(v: View, s: Screen, ids: seq<LayerId>, layer: Layer, part: Part, p: Point): (under: Option<Target>)
    ensures under.Some? ==> under.value.OnLayer? && under.value.layer in ids && s.info(under.value.layer).layer == layer
  {
    if ids == [] then None
    else
      var last := ids[|ids| - 1];
      (if s.info(last).layer == layer then ProbeForInput(v, s, last, part, p) else None)
        .OrElse(LayerUnder(v, s, ids[..|ids| - 1], layer, part, p))
  }

  function PopupUnder(v: View, s: Screen, layer: Layer, p: Point): Option<Target> {
    LayerUnder(v, s, s.layers, layer, Popup, p)
  }

  function ToplevelUnder(v: View, s: Screen, layer: Layer, p: Point): Option<Target> {
    LayerUnder(v, s, s.layers, layer, Toplevel, p)
  }

  function AsTarget(hit: Option<WindowHit>): Option<Target> {
    if hit.Some? then Some(OnWindow(hit.value)) else None
  }

  function AsContents(target: Option<Target>): Contents {
    if target.Some? then Has(target.value) else Nothing
  }

  predicate InputBlocked(s: Screen) {
    s.exitDialogOpen || (!s.locked && (s.screenshotUiOpen || s.mruOpen))
  }

  function LockUnder(s: Screen, p: Point): Option<Target> {
    if s.lockSurfaceAt.None? then None
    else
      var at := s.lockSurfaceAt.value(p);
      if at.Some? then Some(OnLockSurface(at.value)) else None
  }

  function UnderAboveTop(v: View, s: Screen, p: Point): Option<Target> {
    PopupUnder(v, s, Overlay, p).OrElse(ToplevelUnder(v, s, Overlay, p))
      .OrElse(AsTarget(s.movedWindowAt(p))).OrElse(AsTarget(s.windowAt(p)))
      .OrElse(PopupUnder(v, s, Top, p)).OrElse(ToplevelUnder(v, s, Top, p))
      .OrElse(PopupUnder(v, s, Bottom, p)).OrElse(PopupUnder(v, s, Background, p))
      .OrElse(ToplevelUnder(v, s, Bottom, p)).OrElse(ToplevelUnder(v, s, Background, p))
  }

  function UnderRegular(v: View, s: Screen, p: Point): Option<Target> {
    var above := PopupUnder(v, s, Overlay, p).OrElse(ToplevelUnder(v, s, Overlay, p))
      .OrElse(PopupUnder(v, s, Top, p)).OrElse(ToplevelUnder(v, s, Top, p))
      .OrElse(AsTarget(s.movedWindowAt(p)));
    if v.overviewOpen then above.OrElse(AsTarget(s.windowAt(p)))
    else
      above.OrElse(PopupUnder(v, s, Bottom, p)).OrElse(PopupUnder(v, s, Background, p))
        .OrElse(AsTarget(s.windowAt(p)))
        .OrElse(ToplevelUnder(v, s, Bottom, p)).OrElse(ToplevelUnder(v, s, Background, p))
  }

  /** A hot corner takes the point from everything but a covering fullscreen window. */
  predicate HotCornerTakes(v: View, s: Screen, p: Point) {
    !InputBlocked(s) && !s.locked && !v.AboveTop() && s.hotCornerAt(p)
  }

  function ContentsUnder(v: View, s: Screen, p: Point): Contents {
    if s.exitDialogOpen then Nothing
    else if s.locked then AsContents(LockUnder(s, p))
    else if s.screenshotUiOpen || s.mruOpen then Nothing
    else if v.AboveTop() then AsContents(UnderAboveTop(v, s, p))
    else if s.hotCornerAt(p) then HotCorner
    else AsContents(UnderRegular(v, s, p))
  }

  predicate StickyObscured(v: View, s: Screen, p: Point) {
    if PopupUnder(v, s, Overlay, p).Some? || ToplevelUnder(v, s, Overlay, p).Some? then true
    else if v.AboveTop() then false
    else s.hotCornerAt(p) || PopupUnder(v, s, Top, p).Some? || ToplevelUnder(v, s, Top, p).Some?
  }

  predicate LayoutObscured(v: View, s: Screen, p: Point) {
    !v.overviewOpen && (PopupUnder(v, s, Bottom, p).Some? || PopupUnder(v, s, Background, p).Some?)
  }

  /** The window to activate at the point. */
  function WindowUnder(v: View, s: Screen, p: Point): Option<WindowId> {
    if s.exitDialogOpen || s.locked || s.screenshotUiOpen || s.mruOpen then None
    else if StickyObscured(v, s, p) then None
    else if s.movedWindowAt(p).Some? then Some(s.movedWindowAt(p).value.window)
    else if LayoutObscured(v, s, p) then None
    else if s.windowAt(p).Some? then Some(s.windowAt(p).value.window)
    else None
  }

  // Rendering.

  /** The elements on top of everything, which never take input themselves. */
  datatype Decoration =
    | Pointer | ScreenTransition | ExitDialog | ErrorNotification | HotkeyOverlay | Switcher | ScreenshotOverlay
    | LockColor | InsertHint | WorkspaceBackground | Shadows | BackdropColor

  /** An element pushed to the renderer; layer surfaces are scaled and then moved, and possibly cropped. */
  datatype Drawn =
    | Decor(decoration: Decoration)
    | LockTree
    | LayerPart(id: LayerId, part: Part, origin: Point, zoom: real, crop: Option<Rect>)
    | MovedWindow
    | Workspaces

  /** Front to back over one layer: popups or toplevels of its mapped surfaces, on or off the backdrop. */
  function DrawLayer(s: Screen, ids: seq<LayerId>, layer: Layer, part: Part, backdrop: bool,
                     origin: Point, zoom: real, crop: Option<Rect>): seq<Drawn> {
    if ids == [] then []
    else
      var last := ids[|ids| - 1];
      var info := s.info(last);
      (if info.layer == layer && info.mapped && info.InBackdrop() == backdrop
       then [LayerPart(last, part, origin, zoom, crop)] else [])
      + DrawLayer(s, ids[..|ids| - 1], layer, part, backdrop, origin, zoom, crop)
  }

  function DrawStill(s: Screen, layer: Layer, part: Part, backdrop: bool): seq<Drawn> {
    DrawLayer(s, s.layers, layer, part, backdrop, Point(0.0, 0.0), 1.0, None)
  }

  /** The lower layers as they are drawn for one workspace, moving with it. */
  function DrawOnWorkspace(v: View, s: Screen, part: Part, i: nat): seq<Drawn> {
    DrawLayer(s, s.layers, Bottom, part, false, v.Geo(i).loc, v.Zoom(), Some(v.Geo(i)))
    + DrawLayer(s, s.layers, Background, part, false, v.Geo(i).loc, v.Zoom(), Some(v.Geo(i)))
    + (if part == Toplevel then [Decor(WorkspaceBackground)] else [])
  }

  function DrawUnlessCulled(v: View, s: Screen, part: Part, i: nat): seq<Drawn> {
    if v.Culled(i) then [] else DrawOnWorkspace(v, s, part, i)
  }

  /** They are drawn once for each visible workspace. */
  function DrawOnWorkspaces(v: View, s: Screen, part: Part, i: nat): seq<Drawn>
    requires i <= v.workspaces
    decreases v.workspaces - i
  {
    if i == v.workspaces then []
    else
      DrawUnlessCulled(v, s, part, i) + DrawOnWorkspaces(v, s, part, i + 1)
  }

  function DrawAboveTop(s: Screen): seq<Drawn> {
    [MovedWindow, Decor(InsertHint), Workspaces]
    + DrawStill(s, Top, Popup, false) + DrawStill(s, Top, Toplevel, false)
    + DrawStill(s, Bottom, Popup, false) + DrawStill(s, Background, Popup, false)
    + DrawStill(s, Bottom, Toplevel, false) + DrawStill(s, Background, Toplevel, false)
    + [Decor(WorkspaceBackground)]
  }

  function DrawRegular(v: View, s: Screen): seq<Drawn> {
    DrawStill(s, Top, Popup, false) + DrawStill(s, Top, Toplevel, false)
    + [MovedWindow, Decor(InsertHint)]
    + DrawOnWorkspaces(v, s, Popup, 0)
    + [Workspaces]
    + DrawOnWorkspaces(v, s, Toplevel, 0)
  }

  /** Under a covering fullscreen window the regular elements come first; otherwise the top layer does. */
  function DrawMiddle(v: View, s: Screen): seq<Drawn> {
    if v.AboveTop() then DrawAboveTop(s) else DrawRegular(v, s)
  }

  const FRONT := [Decor(Pointer), Decor(ScreenTransition), Decor(ExitDialog), Decor(ErrorNotification)]

  /** Everything pushed for the output, front to back. */
  function Drawing(v: View, s: Screen): seq<Drawn> {
    if s.locked then
      FRONT + (if s.lockSurfaceAt.Some? then [LockTree] else []) + [Decor(LockColor)]
    else if s.screenshotUiOpen then
      FRONT + [Decor(ScreenshotOverlay), Decor(BackdropColor)]
    else
      FRONT + [Decor(HotkeyOverlay), Decor(Switcher)]
      + DrawStill(s, Overlay, Popup, false) + DrawStill(s, Overlay, Toplevel, false)
      + DrawMiddle(v, s)
      + [Decor(Shadows)]
      + DrawStill(s, Background, Popup, true) + DrawStill(s, Background, Toplevel, true)
      + [Decor(BackdropColor)]
  }

  // What the picture says.

  /** Modal interfaces take all input; the backdrop and, in the overview, the lower layers take none. */
  predicate TakesInput(v: View, s: Screen, e: Drawn) {
    !InputBlocked(s) && !e.Decor? &&
    (e.LayerPart? ==> !s.info(e.id).InBackdrop() && !(v.overviewOpen && MovesWithWorkspaces(s.info(e.id).layer)))
  }

  /** What the drawn element has at the point, found by undoing its crop, move and scale. */
  function At(s: Screen, e: Drawn, p: Point): Option<Target> {
    match e
    case Decor(_) => None
    case LockTree => LockUnder(s, p)
    case MovedWindow => AsTarget(s.movedWindowAt(p))
    case Workspaces => AsTarget(s.windowAt(p))
    case LayerPart(id, part, origin, zoom, crop) =>
      if zoom == 0.0 || (crop.Some? && !crop.value.Contains(p)) then None
      else
        var at := s.layerAt(id, part, p.Minus(origin).Downscale(zoom).Minus(s.info(id).loc));
        if at.None? then None
        else
          var q := at.value.pos.Plus(s.info(id).loc);
          Some(OnLayer(id, SurfaceAt(at.value.surface, Point(q.x * zoom, q.y * zoom).Plus(origin))))
  }

  /** The frontmost of the drawn elements that takes input and accepts the point. */
  function Frontmost(v: View, s: Screen, es: seq<Drawn>, p: Point): Option<Target> {
    if es == [] then None
    else (if TakesInput(v, s, es[0]) then At(s, es[0], p) else None).OrElse(Frontmost(v, s, es[1..], p))
  }

  /**
   * The lower layers are out of the way of input, or drawn where hit-testing looks for them, or not drawn at all
   * because no workspace is in sight.
   */
  predicate InputInPlace(v: View) {
    v.overviewOpen || v.Zoom() == 1.0 || forall i | 0 <= i < v.workspaces :: v.Culled(i)
  }

  lemma {:induction false} FrontmostConcat(v: View, s: Screen, a: seq<Drawn>, b: seq<Drawn>, p: Point)
    ensures Frontmost(v, s, a + b, p) == Frontmost(v, s, a, p).OrElse(Frontmost(v, s, b, p))
    decreases |a|
  {
    if a == [] {
      assert a + b == b;
    } else {
      assert (a + b)[0] == a[0] && (a + b)[1..] == a[1..] + b;
      FrontmostConcat(v, s, a[1..], b, p);
    }
  }

  lemma {:induction false} DecorOnly(v: View, s: Screen, es: seq<Drawn>, p: Point)
    requires forall e | e in es :: !TakesInput(v, s, e)
    ensures Frontmost(v, s, es, p) == None
  {
    if es != [] {
      assert es[0] in es;
      DecorOnly(v, s, es[1..], p);
    }
  }

  /** An origin and crop under which layer surfaces are drawn exactly where hit-testing looks for them. */
  ghost predicate DrawnInPlace(v: View, layer: Layer, origin: Point, zoom: real, crop: Option<Rect>, p: Point) {
    && zoom == 1.0
    && (crop.Some? ==> crop.value.Contains(p))
    && (if MovesWithWorkspaces(layer)
        then v.WorkspaceUnder(p, 0).Some? && origin == v.Geo(v.WorkspaceUnder(p, 0).value).loc
        else origin == Point(0.0, 0.0))
  }

  lemma PartInPlace(v: View, s: Screen, id: LayerId, part: Part, origin: Point, crop: Option<Rect>, p: Point)
    requires s.info(id).mapped && !s.info(id).InBackdrop()
    requires DrawnInPlace(v, s.info(id).layer, origin, 1.0, crop, p)
    ensures At(s, LayerPart(id, part, origin, 1.0, crop), p) == ProbeForInput(v, s, id, part, p)
  {
    var loc := s.info(id).loc;
    assert p.Minus(origin).Downscale(1.0).Minus(loc) == p.Minus(loc.Plus(origin));
    if !MovesWithWorkspaces(s.info(id).layer) {
      assert loc.Plus(origin) == loc;
    }
  }

  lemma {:induction false} LayerInPlace(v: View, s: Screen, ids: seq<LayerId>, layer: Layer, part: Part,
                                        origin: Point, zoom: real, crop: Option<Rect>, p: Point)
    requires !InputBlocked(s) && !(v.overviewOpen && MovesWithWorkspaces(layer))
    requires DrawnInPlace(v, layer, origin, zoom, crop, p)
    ensures Frontmost(v, s, DrawLayer(s, ids, layer, part, false, origin, zoom, crop), p) ==
      LayerUnder(v, s, ids, layer, part, p)
  {
    if ids != [] {
      var last := ids[|ids| - 1];
      LayerInPlace(v, s, ids[..|ids| - 1], layer, part, origin, zoom, crop, p);
      var rest := DrawLayer(s, ids[..|ids| - 1], layer, part, false, origin, zoom, crop);
      var e := LayerPart(last, part, origin, zoom, crop);
      if s.info(last).layer == layer && s.info(last).mapped && !s.info(last).InBackdrop() {
        PartInPlace(v, s, last, part, origin, crop, p);
        assert ([e] + rest)[0] == e && ([e] + rest)[1..] == rest;
      } else {
        assert [] + rest == rest;
      }
    }
  }

  /** A layer cropped away from the point, or one that takes no input, has nothing there. */
  lemma {:induction false} LayerOutOfReach(v: View, s: Screen, ids: seq<LayerId>, layer: Layer, part: Part, backdrop: bool,
                                           origin: Point, zoom: real, crop: Option<Rect>, p: Point)
    requires (crop.Some? && !crop.value.Contains(p)) || backdrop || (v.overviewOpen && MovesWithWorkspaces(layer))
    ensures Frontmost(v, s, DrawLayer(s, ids, layer, part, backdrop, origin, zoom, crop), p) == None
  {
    if ids != [] {
      LayerOutOfReach(v, s, ids[..|ids| - 1], layer, part, backdrop, origin, zoom, crop, p);
      var rest := DrawLayer(s, ids[..|ids| - 1], layer, part, backdrop, origin, zoom, crop);
      var e := LayerPart(ids[|ids| - 1], part, origin, zoom, crop);
      assert ([e] + rest)[0] == e && ([e] + rest)[1..] == rest;
      assert [] + rest == rest;
    }
  }

  // Geometry of the workspaces.

  lemma ScaledAtLeast(a: real, step: real)
    requires a >= 1.0 && step > 0.0
    ensures a * step >= step
  {
    assert (a - 1.0) * step >= 0.0;
  }

  lemma RowsApart(first: real, pitch: real, i: nat, j: nat)
    requires pitch > 0.0 && i < j
    ensures Row(first, pitch, j) >= Row(first, pitch, i) + pitch
  {
    var apart := j as real - i as real;
    ScaledAtLeast(apart, pitch);
    assert j as real * pitch == i as real * pitch + apart * pitch;
  }

  lemma WorkspaceAbove(v: View, i: nat, j: nat)
    requires v.Valid() && i < j
    ensures v.Geo(j).loc.y > v.Geo(i).loc.y + v.Geo(i).h
  {
    assert v.Height() > 0.0;
    var firstY := -v.switchIdx.GetOr(v.active as real) * v.Pitch();
    RowsApart(firstY + (v.h - v.Height()) / 2.0, v.Pitch(), i, j);
  }

  /** No point is on two workspaces. */
  lemma WorkspacesApart(v: View, i: nat, j: nat, p: Point)
    requires v.Valid() && i != j
    ensures !(v.UnderStrip(i, p) && v.UnderStrip(j, p))
  {
    if i < j {
      WorkspaceAbove(v, i, j);
    } else {
      WorkspaceAbove(v, j, i);
    }
  }

  lemma StripIsWorkspace(v: View, i: nat, p: Point)
    requires v.Valid() && v.Zoom() == 1.0
    ensures v.UnderStrip(i, p) <==> v.Geo(i).Contains(p)
  {
    assert v.Geo(i).loc.x == 0.0 && v.Geo(i).w == v.w;
  }

  lemma OnlyWorkspaceUnder(v: View, i: nat, p: Point)
    requires v.Valid() && v.Zoom() == 1.0 && i < v.workspaces && !v.Culled(i)
    ensures v.Geo(i).Contains(p) <==> v.WorkspaceUnder(p, 0) == Some(i)
  {
    StripIsWorkspace(v, i, p);
    var found := v.WorkspaceUnder(p, 0);
    if found.Some? && found.value != i && v.UnderStrip(i, p) {
      WorkspacesApart(v, i, found.value, p);
    }
  }

  /** While nothing moves, the active workspace fills the output. */
  lemma StillWorkspaceUnder(v: View, p: Point)
    requires v.Valid() && v.AboveTop() && 0.0 <= p.x < v.w && 0.0 <= p.y < v.h
    ensures v.WorkspaceUnder(p, 0) == Some(v.active) && v.Geo(v.active).loc == Point(0.0, 0.0)
  {
    assert v.Geo(v.active) == Rect(Point(0.0, 0.0), v.w, v.h);
    OnlyWorkspaceUnder(v, v.active, p);
  }

  function LowerUnder(v: View, s: Screen, part: Part, p: Point): Option<Target> {
    LayerUnder(v, s, s.layers, Bottom, part, p).OrElse(LayerUnder(v, s, s.layers, Background, part, p))
  }

  /** The lower layers of one workspace: as hit-testing finds them on the workspace under the point, else nothing. */
  lemma OneWorkspace(v: View, s: Screen, part: Part, i: nat, p: Point)
    requires v.Valid() && !InputBlocked(s) && InputInPlace(v) && i < v.workspaces && !v.Culled(i)
    ensures Frontmost(v, s, DrawOnWorkspace(v, s, part, i), p) ==
      if !v.overviewOpen && v.WorkspaceUnder(p, 0) == Some(i) then LowerUnder(v, s, part, p) else None
  {
    var g := v.Geo(i);
    var bottom := DrawLayer(s, s.layers, Bottom, part, false, g.loc, v.Zoom(), Some(g));
    var background := DrawLayer(s, s.layers, Background, part, false, g.loc, v.Zoom(), Some(g));
    var decor := if part == Toplevel then [Decor(WorkspaceBackground)] else [];
    FrontmostConcat(v, s, bottom + background, decor, p);
    FrontmostConcat(v, s, bottom, background, p);
    DecorOnly(v, s, decor, p);
    if !v.overviewOpen {
      OnlyWorkspaceUnder(v, i, p);
    }
    if !v.overviewOpen && v.WorkspaceUnder(p, 0) == Some(i) {
      LayerInPlace(v, s, s.layers, Bottom, part, g.loc, v.Zoom(), Some(g), p);
      LayerInPlace(v, s, s.layers, Background, part, g.loc, v.Zoom(), Some(g), p);
    } else {
      LayerOutOfReach(v, s, s.layers, Bottom, part, false, g.loc, v.Zoom(), Some(g), p);
      LayerOutOfReach(v, s, s.layers, Background, part, false, g.loc, v.Zoom(), Some(g), p);
    }
  }

  lemma {:induction false} NoWorkspaceNoLower(v: View, s: Screen, ids: seq<LayerId>, layer: Layer, part: Part, p: Point)
    requires MovesWithWorkspaces(layer) && v.WorkspaceUnder(p, 0).None?
    ensures LayerUnder(v, s, ids, layer, part, p) == None
  {
    if ids != [] {
      NoWorkspaceNoLower(v, s, ids[..|ids| - 1], layer, part, p);
    }
  }

  lemma OneWorkspaceUnlessCulled(v: View, s: Screen, part: Part, i: nat, p: Point)
    requires v.Valid() && !InputBlocked(s) && InputInPlace(v) && i < v.workspaces
    ensures Frontmost(v, s, DrawUnlessCulled(v, s, part, i), p) ==
      if !v.overviewOpen && v.WorkspaceUnder(p, 0) == Some(i) then LowerUnder(v, s, part, p) else None
  {
    if !v.Culled(i) {
      OneWorkspace(v, s, part, i, p);
    }
  }

  /** The copies on all workspaces together are what hit-testing finds on the one under the point. */
  lemma {:induction false} AllWorkspaces(v: View, s: Screen, part: Part, i: nat, p: Point)
    requires v.Valid() && !InputBlocked(s) && InputInPlace(v) && i <= v.workspaces
    ensures Frontmost(v, s, DrawOnWorkspaces(v, s, part, i), p) ==
      var ws := v.WorkspaceUnder(p, 0);
      if !v.overviewOpen && ws.Some? && ws.value >= i then LowerUnder(v, s, part, p) else None
    decreases v.workspaces - i
  {
    if i < v.workspaces {
      AllWorkspaces(v, s, part, i + 1, p);
      OneWorkspaceUnlessCulled(v, s, part, i, p);
      FrontmostConcat(v, s, DrawUnlessCulled(v, s, part, i), DrawOnWorkspaces(v, s, part, i + 1), p);
    }
  }

  // Main results.

  /** A layer drawn without moving is found by hit-testing, be it an upper layer or, with nothing moving, a lower one. */
  lemma StillLayerInPlace(v: View, s: Screen, layer: Layer, part: Part, p: Point)
    requires v.Valid() && !InputBlocked(s)
    requires MovesWithWorkspaces(layer) ==> v.AboveTop() && 0.0 <= p.x < v.w && 0.0 <= p.y < v.h
    ensures Frontmost(v, s, DrawStill(s, layer, part, false), p) == LayerUnder(v, s, s.layers, layer, part, p)
  {
    if MovesWithWorkspaces(layer) {
      StillWorkspaceUnder(v, p);
    }
    LayerInPlace(v, s, s.layers, layer, part, Point(0.0, 0.0), 1.0, None, p);
  }

  function DrawPair(s: Screen, first: Layer, a: Part, second: Layer, b: Part): seq<Drawn> {
    DrawStill(s, first, a, false) + DrawStill(s, second, b, false)
  }

  /** Two layers drawn still, one after the other. */
  lemma StillPair(v: View, s: Screen, first: Layer, a: Part, second: Layer, b: Part, p: Point)
    requires v.Valid() && !InputBlocked(s) && v.AboveTop() && 0.0 <= p.x < v.w && 0.0 <= p.y < v.h
    ensures Frontmost(v, s, DrawPair(s, first, a, second, b), p) ==
      LayerUnder(v, s, s.layers, first, a, p).OrElse(LayerUnder(v, s, s.layers, second, b, p))
  {
    StillLayerInPlace(v, s, first, a, p);
    StillLayerInPlace(v, s, second, b, p);
    FrontmostConcat(v, s, DrawStill(s, first, a, false), DrawStill(s, second, b, false), p);
  }

  lemma WindowsFirst(v: View, s: Screen, p: Point)
    requires !InputBlocked(s)
    ensures Frontmost(v, s, [MovedWindow, Decor(InsertHint), Workspaces], p) ==
      AsTarget(s.movedWindowAt(p)).OrElse(AsTarget(s.windowAt(p)))
  {
    assert [MovedWindow, Decor(InsertHint), Workspaces] == [MovedWindow] + ([Decor(InsertHint)] + [Workspaces]);
    FrontmostConcat(v, s, [MovedWindow], [Decor(InsertHint)] + [Workspaces], p);
    FrontmostConcat(v, s, [Decor(InsertHint)], [Workspaces], p);
  }

  lemma AboveTopMatches(v: View, s: Screen, p: Point)
    requires v.Valid() && !InputBlocked(s) && v.AboveTop() && 0.0 <= p.x < v.w && 0.0 <= p.y < v.h
    ensures Frontmost(v, s, DrawAboveTop(s), p) ==
      AsTarget(s.movedWindowAt(p)).OrElse(AsTarget(s.windowAt(p)))
        .OrElse(PopupUnder(v, s, Top, p)).OrElse(ToplevelUnder(v, s, Top, p))
        .OrElse(PopupUnder(v, s, Bottom, p)).OrElse(PopupUnder(v, s, Background, p))
        .OrElse(ToplevelUnder(v, s, Bottom, p)).OrElse(ToplevelUnder(v, s, Background, p))
  {
    var windows := [MovedWindow, Decor(InsertHint), Workspaces];
    var top := DrawPair(s, Top, Popup, Top, Toplevel);
    var popups := DrawPair(s, Bottom, Popup, Background, Popup);
    var toplevels := DrawPair(s, Bottom, Toplevel, Background, Toplevel);
    var behind := [Decor(WorkspaceBackground)];
    WindowsFirst(v, s, p);
    StillPair(v, s, Top, Popup, Top, Toplevel, p);
    StillPair(v, s, Bottom, Popup, Background, Popup, p);
    StillPair(v, s, Bottom, Toplevel, Background, Toplevel, p);
    DecorOnly(v, s, behind, p);
    AboveTopInPairs(s);
    FrontmostFive(v, s, windows, top, popups, toplevels, behind, p);
  }

  lemma AboveTopInPairs(s: Screen)
    ensures DrawAboveTop(s) ==
      [MovedWindow, Decor(InsertHint), Workspaces] + DrawPair(s, Top, Popup, Top, Toplevel)
      + DrawPair(s, Bottom, Popup, Background, Popup) + DrawPair(s, Bottom, Toplevel, Background, Toplevel)
      + [Decor(WorkspaceBackground)]
  {
    var windows := [MovedWindow, Decor(InsertHint), Workspaces];
    var a := windows + DrawStill(s, Top, Popup, false) + DrawStill(s, Top, Toplevel, false);
    var b := a + DrawStill(s, Bottom, Popup, false) + DrawStill(s, Background, Popup, false);
    var c := b + DrawStill(s, Bottom, Toplevel, false) + DrawStill(s, Background, Toplevel, false);
    assert DrawAboveTop(s) == c + [Decor(WorkspaceBackground)];
    assert a == windows + DrawPair(s, Top, Popup, Top, Toplevel);
    assert b == a + DrawPair(s, Bottom, Popup, Background, Popup);
    assert c == b + DrawPair(s, Bottom, Toplevel, Background, Toplevel);
  }

  lemma FrontmostFive(v: View, s: Screen, a: seq<Drawn>, b: seq<Drawn>, c: seq<Drawn>, d: seq<Drawn>, e: seq<Drawn>, p: Point)
    ensures Frontmost(v, s, a + b + c + d + e, p) ==
      Frontmost(v, s, a, p).OrElse(Frontmost(v, s, b, p)).OrElse(Frontmost(v, s, c, p))
        .OrElse(Frontmost(v, s, d, p)).OrElse(Frontmost(v, s, e, p))
  {
    FrontmostConcat(v, s, a, b, p);
    FrontmostConcat(v, s, a + b, c, p);
    FrontmostConcat(v, s, a + b + c, d, p);
    FrontmostConcat(v, s, a + b + c + d, e, p);
  }

  lemma RegularParts(v: View, s: Screen, p: Point)
    requires v.Valid() && !InputBlocked(s)
    ensures Frontmost(v, s, DrawRegular(v, s), p) ==
      PopupUnder(v, s, Top, p).OrElse(ToplevelUnder(v, s, Top, p)).OrElse(AsTarget(s.movedWindowAt(p)))
        .OrElse(Frontmost(v, s, DrawOnWorkspaces(v, s, Popup, 0), p)).OrElse(AsTarget(s.windowAt(p)))
        .OrElse(Frontmost(v, s, DrawOnWorkspaces(v, s, Toplevel, 0), p))
  {
    StillLayerInPlace(v, s, Top, Popup, p);
    StillLayerInPlace(v, s, Top, Toplevel, p);
    var popups, toplevels := DrawOnWorkspaces(v, s, Popup, 0), DrawOnWorkspaces(v, s, Toplevel, 0);
    var a := DrawStill(s, Top, Popup, false) + DrawStill(s, Top, Toplevel, false);
    var moved := [MovedWindow, Decor(InsertHint)];
    FrontmostConcat(v, s, DrawStill(s, Top, Popup, false), DrawStill(s, Top, Toplevel, false), p);
    FrontmostConcat(v, s, a, moved, p);
    assert [MovedWindow] + [Decor(InsertHint)] == moved;
    FrontmostConcat(v, s, [MovedWindow], [Decor(InsertHint)], p);
    FrontmostConcat(v, s, a + moved, popups, p);
    FrontmostConcat(v, s, a + moved + popups, [Workspaces], p);
    FrontmostConcat(v, s, a + moved + popups + [Workspaces], toplevels, p);
  }

  lemma RegularMatches(v: View, s: Screen, p: Point)
    requires v.Valid() && !InputBlocked(s) && InputInPlace(v)
    ensures Frontmost(v, s, DrawRegular(v, s), p) ==
      var above := PopupUnder(v, s, Top, p).OrElse(ToplevelUnder(v, s, Top, p)).OrElse(AsTarget(s.movedWindowAt(p)));
      if v.overviewOpen then above.OrElse(AsTarget(s.windowAt(p)))
      else above.OrElse(LowerUnder(v, s, Popup, p)).OrElse(AsTarget(s.windowAt(p))).OrElse(LowerUnder(v, s, Toplevel, p))
  {
    RegularParts(v, s, p);
    AllWorkspaces(v, s, Popup, 0, p);
    AllWorkspaces(v, s, Toplevel, 0, p);
    if v.WorkspaceUnder(p, 0).None? {
      NoWorkspaceNoLower(v, s, s.layers, Bottom, Popup, p);
      NoWorkspaceNoLower(v, s, s.layers, Background, Popup, p);
      NoWorkspaceNoLower(v, s, s.layers, Bottom, Toplevel, p);
      NoWorkspaceNoLower(v, s, s.layers, Background, Toplevel, p);
    }
  }

  /** In the unlocked picture nothing in front of the overlay layer or behind the workspaces takes input. */
  lemma UnlockedParts(v: View, s: Screen, p: Point)
    requires v.Valid() && !InputBlocked(s) && !s.locked
    ensures Frontmost(v, s, Drawing(v, s), p) ==
      PopupUnder(v, s, Overlay, p).OrElse(ToplevelUnder(v, s, Overlay, p)).OrElse(Frontmost(v, s, DrawMiddle(v, s), p))
  {
    var front := FRONT + [Decor(HotkeyOverlay), Decor(Switcher)];
    var overlay := front + DrawStill(s, Overlay, Popup, false);
    var overlays := overlay + DrawStill(s, Overlay, Toplevel, false);
    var middle := DrawMiddle(v, s);
    var shadows := overlays + middle + [Decor(Shadows)];
    var popups := shadows + DrawStill(s, Background, Popup, true);
    var all := popups + DrawStill(s, Background, Toplevel, true);
    DecorOnly(v, s, front, p);
    StillLayerInPlace(v, s, Overlay, Popup, p);
    StillLayerInPlace(v, s, Overlay, Toplevel, p);
    LayerOutOfReach(v, s, s.layers, Background, Popup, true, Point(0.0, 0.0), 1.0, None, p);
    LayerOutOfReach(v, s, s.layers, Background, Toplevel, true, Point(0.0, 0.0), 1.0, None, p);
    FrontmostConcat(v, s, front, DrawStill(s, Overlay, Popup, false), p);
    FrontmostConcat(v, s, overlay, DrawStill(s, Overlay, Toplevel, false), p);
    FrontmostConcat(v, s, overlays, middle, p);
    FrontmostConcat(v, s, overlays + middle, [Decor(Shadows)], p);
    FrontmostConcat(v, s, shadows, DrawStill(s, Background, Popup, true), p);
    FrontmostConcat(v, s, popups, DrawStill(s, Background, Toplevel, true), p);
    FrontmostConcat(v, s, all, [Decor(BackdropColor)], p);
    DecorOnly(v, s, [Decor(Shadows)], p);
    DecorOnly(v, s, [Decor(BackdropColor)], p);
  }

  lemma UnlockedMatches(v: View, s: Screen, p: Point)
    requires v.Valid() && !InputBlocked(s) && !s.locked && InputInPlace(v) && 0.0 <= p.x < v.w && 0.0 <= p.y < v.h
    ensures Frontmost(v, s, Drawing(v, s), p) == if v.AboveTop() then UnderAboveTop(v, s, p) else UnderRegular(v, s, p)
  {
    UnlockedParts(v, s, p);
    if v.AboveTop() {
      AboveTopMatches(v, s, p);
    } else {
      RegularMatches(v, s, p);
    }
  }

  lemma {:induction false} BlockedSeesNothing(v: View, s: Screen, es: seq<Drawn>, p: Point)
    requires InputBlocked(s)
    ensures Frontmost(v, s, es, p) == None
  {
    DecorOnly(v, s, es, p);
  }

  lemma LockedMatches(v: View, s: Screen, p: Point)
    requires s.locked && !InputBlocked(s)
    ensures Frontmost(v, s, Drawing(v, s), p) == LockUnder(s, p)
  {
    var lock := if s.lockSurfaceAt.Some? then [LockTree] else [];
    FrontmostConcat(v, s, FRONT, lock, p);
    FrontmostConcat(v, s, FRONT + lock, [Decor(LockColor)], p);
    DecorOnly(v, s, FRONT, p);
    DecorOnly(v, s, [Decor(LockColor)], p);
  }

  /**
   * Input matches visuals: apart from hot corners, hit-testing returns the frontmost element of the picture that
   * takes input and accepts the point, for every screen and every point of the output.
   */
  lemma InputMatchesVisuals(v: View, s: Screen, p: Point)
    requires v.Valid() && InputInPlace(v) && 0.0 <= p.x < v.w && 0.0 <= p.y < v.h
    ensures ContentsUnder(v, s, p) ==
      if HotCornerTakes(v, s, p) then HotCorner else AsContents(Frontmost(v, s, Drawing(v, s), p))
  {
    if InputBlocked(s) {
      BlockedSeesNothing(v, s, Drawing(v, s), p);
    } else if s.locked {
      LockedMatches(v, s, p);
    } else {
      UnlockedMatches(v, s, p);
    }
  }

  // While the overview is closing, the lower layers are drawn scaled but hit-tested at full size.

  /** One bottom surface with a popup of a single point. */
  function OnePopup(q: Point): Screen {
    Screen(false, false, None, false, false, [0], _ => LayerState(Bottom, true, false, false, Point(0.0, 0.0)),
           (_, part, at) => if part == Popup && at == q then Some(SurfaceAt(0, Point(0.0, 0.0))) else None,
           _ => None, _ => None, _ => false)
  }

  /** The drawing on the workspace does not bring the popup's point there. */
  ghost predicate Misses(v: View, q: Point, i: nat, p: Point)
    requires v.Zoom() > 0.0
  {
    v.Geo(i).Contains(p) ==> p.Minus(v.Geo(i).loc).Downscale(v.Zoom()) != q
  }

  /** The popup is hit only where its drawing on some workspace brings it. */
  lemma OnePopupElsewhere(v: View, q: Point, part: Part, i: nat, p: Point)
    requires v.Zoom() > 0.0 && Misses(v, q, i, p)
    ensures Frontmost(v, OnePopup(q), DrawOnWorkspace(v, OnePopup(q), part, i), p) == None
  {
    var s := OnePopup(q);
    var g := v.Geo(i);
    var e := LayerPart(0, part, g.loc, v.Zoom(), Some(g));
    var decor := if part == Toplevel then [Decor(WorkspaceBackground)] else [];
    assert DrawOnWorkspace(v, s, part, i) == [e] + decor by {
      assert DrawLayer(s, [0], Bottom, part, false, g.loc, v.Zoom(), Some(g)) == [e];
      assert DrawLayer(s, [0], Background, part, false, g.loc, v.Zoom(), Some(g)) == [];
    }
    assert At(s, e, p) == None by {
      var there := p.Minus(g.loc).Downscale(v.Zoom());
      assert there.Minus(Point(0.0, 0.0)) == there;
    }
    FrontmostConcat(v, s, [e], decor, p);
    DecorOnly(v, s, decor, p);
  }

  lemma OnePopupUnlessCulled(v: View, q: Point, part: Part, i: nat, p: Point)
    requires v.Zoom() > 0.0 && Misses(v, q, i, p)
    ensures Frontmost(v, OnePopup(q), DrawUnlessCulled(v, OnePopup(q), part, i), p) == None
  {
    OnePopupElsewhere(v, q, part, i, p);
  }

  lemma {:induction false} OnePopupDrawnElsewhere(v: View, q: Point, part: Part, i: nat, p: Point)
    requires v.Zoom() > 0.0 && i <= v.workspaces
    requires forall j: nat | i <= j < v.workspaces :: Misses(v, q, j, p)
    ensures Frontmost(v, OnePopup(q), DrawOnWorkspaces(v, OnePopup(q), part, i), p) == None
    decreases v.workspaces - i
  {
    if i < v.workspaces {
      OnePopupDrawnElsewhere(v, q, part, i + 1, p);
      OnePopupUnlessCulled(v, q, part, i, p);
      FrontmostConcat(v, OnePopup(q), DrawUnlessCulled(v, OnePopup(q), part, i),
                      DrawOnWorkspaces(v, OnePopup(q), part, i + 1), p);
    }
  }

  lemma OnePopupDrawing(v: View, q: Point, p: Point)
    requires v.Valid() && !v.AboveTop()
    requires forall j: nat | j < v.workspaces :: Misses(v, q, j, p)
    ensures Frontmost(v, OnePopup(q), Drawing(v, OnePopup(q)), p) == None
  {
    UnlockedParts(v, OnePopup(q), p);
    RegularParts(v, OnePopup(q), p);
    OnePopupDrawnElsewhere(v, q, Popup, 0, p);
    OnePopupDrawnElsewhere(v, q, Toplevel, 0, p);
  }

  lemma OneLayerOnly(v: View, s: Screen, layer: Layer, part: Part, p: Point)
    requires s.layers == [0]
    ensures LayerUnder(v, s, [0], layer, part, p) ==
      if s.info(0).layer == layer then ProbeForInput(v, s, 0, part, p) else None
  {
    assert [0][..0] == [];
  }

  /** The popup of a screen with a single one is where hit-testing looks for it. */
  lemma OnePopupUnder(v: View, s: Screen, q: Point, p: Point)
    requires v.WorkspaceUnder(p, 0).Some? && p.Minus(v.Geo(v.WorkspaceUnder(p, 0).value).loc) == q
    requires s.layers == [0] && s.info == OnePopup(q).info && s.layerAt == OnePopup(q).layerAt
    ensures PopupUnder(v, s, Bottom, p).Some?
    ensures forall part :: LayerUnder(v, s, s.layers, Overlay, part, p) == None
  {
    var g := v.Geo(v.WorkspaceUnder(p, 0).value).loc;
    assert Point(0.0, 0.0).Plus(g) == g;
    OneLayerOnly(v, s, Bottom, Popup, p);
    OneLayerOnly(v, s, Overlay, Popup, p);
    OneLayerOnly(v, s, Overlay, Toplevel, p);
  }

  /** Hit-testing finds the popup at full size on the workspace under the point. */
  lemma OnePopupIsHit(v: View, p: Point)
    requires v.Valid() && !v.overviewOpen && !v.AboveTop() && v.WorkspaceUnder(p, 0).Some?
    ensures ContentsUnder(v, OnePopup(p.Minus(v.Geo(v.WorkspaceUnder(p, 0).value).loc)), p).Has?
  {
    var q := p.Minus(v.Geo(v.WorkspaceUnder(p, 0).value).loc);
    OnePopupUnder(v, OnePopup(q), q, p);
  }

  lemma ScalingMoves(x: real, scaled: real, zoom: real)
    requires x != 0.0 && zoom != 1.0 && scaled * zoom == x
    ensures scaled != x
  {
    var d, e := zoom - 1.0, scaled - x;
    assert e * zoom == scaled * zoom - x * zoom;
    assert x * zoom == x + x * d;
    assert x * d != 0.0;
    assert e * zoom == -x * d;
    assert e * zoom != 0.0;
    assert e != 0.0;
  }

  /** Undoing the zoom moves the left edge of the output away from where hit-testing looks. */
  lemma LeftEdgeMoves(v: View, i: nat, p: Point)
    requires v.Valid() && v.Zoom() != 1.0 && p.x == 0.0
    ensures p.Minus(v.Geo(i).loc).Downscale(v.Zoom()) != p.Minus(v.Geo(i).loc)
  {
    var margin := v.w * (1.0 - v.Zoom());
    assert margin != 0.0;
    assert v.Geo(i).loc.x == margin / 2.0;
    var x := -margin / 2.0;
    assert x / v.Zoom() * v.Zoom() == x;
    ScalingMoves(x, x / v.Zoom(), v.Zoom());
  }

  /** A visible workspace takes input at the left edge, in its topmost visible row. */
  lemma LeftEdgeUnder(v: View, i: nat) returns (p: Point)
    requires v.Valid() && i < v.workspaces && !v.Culled(i)
    ensures p.x == 0.0 && 0.0 <= p.y < v.h && v.WorkspaceUnder(p, 0) == Some(i)
  {
    var top := v.Geo(i).loc.y;
    p := Point(0.0, if top < 0.0 then 0.0 else top);
    assert v.UnderStrip(i, p);
    var found := v.WorkspaceUnder(p, 0);
    if found.value != i {
      WorkspacesApart(v, i, found.value, p);
    }
  }

  /**
   * On every view where the lower layers are drawn scaled, on some workspace in sight, but do take input, some
   * screen takes input where nothing is drawn: the condition of `InputMatchesVisuals` cannot be dropped.
   */
  lemma ClosingOverviewMismatch(v: View)
    requires v.Valid() && !InputInPlace(v)
    ensures exists s: Screen, p: Point ::
      (0.0 <= p.x < v.w && 0.0 <= p.y < v.h && !HotCornerTakes(v, s, p) &&
       ContentsUnder(v, s, p) != AsContents(Frontmost(v, s, Drawing(v, s), p)))
  {
    var i :| 0 <= i < v.workspaces && !v.Culled(i);
    var p := LeftEdgeUnder(v, i);
    OnePopupIsHit(v, p);
    var q := p.Minus(v.Geo(i).loc);
    forall j: nat | j < v.workspaces ensures Misses(v, q, j, p) {
      if j == i {
        LeftEdgeMoves(v, i, p);
      } else if v.Geo(j).Contains(p) {
        WorkspacesApart(v, i, j, p);
      }
    }
    OnePopupDrawing(v, q, p);
    var s := OnePopup(q);
    assert !HotCornerTakes(v, s, p);
  }

  /** Hit-testing of this point of this screen follows the picture. */
  ghost predicate FollowsPicture(v: View, s: Screen, p: Point) {
    0.0 <= p.x < v.w && 0.0 <= p.y < v.h ==>
      ContentsUnder(v, s, p) ==
        if HotCornerTakes(v, s, p) then HotCorner else AsContents(Frontmost(v, s, Drawing(v, s), p))
  }

  /**
   * On every view, moving or not, input follows the picture for every screen and point exactly when the lower layers
   * take no input, are not scaled, or are out of sight with all workspaces.
   */
  lemma InputMatchesVisualsIff(v: View)
    requires v.Valid()
    ensures (forall s: Screen, p: Point :: FollowsPicture(v, s, p)) <==> InputInPlace(v)
  {
    if InputInPlace(v) {
      forall s: Screen, p: Point ensures FollowsPicture(v, s, p) {
        if 0.0 <= p.x < v.w && 0.0 <= p.y < v.h {
          InputMatchesVisuals(v, s, p);
        }
      }
    } else {
      ClosingOverviewMismatch(v);
      var s: Screen, p: Point :| 0.0 <= p.x < v.w && 0.0 <= p.y < v.h && !HotCornerTakes(v, s, p) &&
        ContentsUnder(v, s, p) != AsContents(Frontmost(v, s, Drawing(v, s), p));
      assert !FollowsPicture(v, s, p);
    }
  }

  /**
   * The window to activate is the one that hit-testing reports, except under a fullscreen window: there a popup of
   * a bottom or background surface, drawn behind the window, still hides it from activation.
   */
  lemma ActivationMatchesInput(v: View, s: Screen, p: Point)
    ensures WindowUnder(v, s, p) ==
      var under := ContentsUnder(v, s, p);
      if under.Has? && under.target.OnWindow? && !(v.AboveTop() && s.movedWindowAt(p).None? && LayoutObscured(v, s, p))
      then Some(under.target.hit.window)
      else None
  {
    if !s.exitDialogOpen && !s.locked && !s.screenshotUiOpen && !s.mruOpen {
      if v.AboveTop() {
        assert ContentsUnder(v, s, p) == AsContents(UnderAboveTop(v, s, p));
      } else if !s.hotCornerAt(p) {
        assert ContentsUnder(v, s, p) == AsContents(UnderRegular(v, s, p));
      }
    }
  }

  lemma HiddenPopup(v: View, s: Screen, p: Point, hit: WindowHit)
    requires v.AboveTop() && !v.overviewOpen && !InputBlocked(s) && !s.locked
    requires PopupUnder(v, s, Overlay, p).None? && ToplevelUnder(v, s, Overlay, p).None?
    requires s.movedWindowAt(p).None? && s.windowAt(p) == Some(hit) && PopupUnder(v, s, Bottom, p).Some?
    ensures ContentsUnder(v, s, p) == Has(OnWindow(hit)) && WindowUnder(v, s, p) == None
  {
    assert ContentsUnder(v, s, p) == AsContents(UnderAboveTop(v, s, p));
    assert LayoutObscured(v, s, p);
    ActivationMatchesInput(v, s, p);
  }

  /** Under every fullscreen window the exception occurs, at each point and whatever the window's answer. */
  lemma HiddenPopupBlocksActivation(v: View, p: Point, hit: WindowHit)
    requires v.Valid() && v.AboveTop() && 0.0 <= p.x < v.w && 0.0 <= p.y < v.h
    ensures
      var s := OnePopup(p).(windowAt := _ => Some(hit));
      && Frontmost(v, s, Drawing(v, s), p) == Some(OnWindow(hit))
      && ContentsUnder(v, s, p) == Has(OnWindow(hit))
      && WindowUnder(v, s, p) == None
  {
    var s := OnePopup(p).(windowAt := _ => Some(hit));
    StillWorkspaceUnder(v, p);
    OnePopupUnder(v, s, p, p);
    HiddenPopup(v, s, p, hit);
    InputMatchesVisuals(v, s, p);
  }

  // Hot corners, which are not drawn.

  /**
   * A hot corner is reported exactly where it takes the point, and while input is in place this is exactly where
   * hit-testing departs from the picture.
   */
  lemma HotCornerIff(v: View, s: Screen, p: Point)
    requires v.Valid() && 0.0 <= p.x < v.w && 0.0 <= p.y < v.h
    ensures ContentsUnder(v, s, p) == HotCorner <==> HotCornerTakes(v, s, p)
    ensures InputInPlace(v) ==>
      (ContentsUnder(v, s, p) == AsContents(Frontmost(v, s, Drawing(v, s), p)) <==> !HotCornerTakes(v, s, p))
  {
    if InputInPlace(v) {
      InputMatchesVisuals(v, s, p);
    }
  }

  /** An overlay surface over the whole output, with hot corners wherever `corner` says. */
  function CoveredCorner(corner: Point -> bool): Screen {
    Screen(false, false, None, false, false, [0], _ => LayerState(Overlay, true, false, false, Point(0.0, 0.0)),
           (_, _, _) => Some(SurfaceAt(0, Point(0.0, 0.0))), _ => None, _ => None, corner)
  }

  lemma CoveredProbe(v: View, s: Screen, at: SurfaceAt, p: Point)
    requires s.info(0) == LayerState(Overlay, true, false, false, Point(0.0, 0.0))
    requires forall q :: s.layerAt(0, Popup, q) == Some(at)
    ensures ProbeForInput(v, s, 0, Popup, p) == Some(OnLayer(0, at))
  {
    assert at.pos.Plus(Point(0.0, 0.0)) == at.pos;
  }

  lemma CoveredUnder(v: View, corner: Point -> bool, p: Point)
    ensures PopupUnder(v, CoveredCorner(corner), Overlay, p) == Some(OnLayer(0, SurfaceAt(0, Point(0.0, 0.0))))
  {
    var s := CoveredCorner(corner);
    OneLayerOnly(v, s, Overlay, Popup, p);
    CoveredProbe(v, s, SurfaceAt(0, Point(0.0, 0.0)), p);
  }

  lemma CornerBeatsPopup(v: View, s: Screen, p: Point)
    requires v.Valid() && HotCornerTakes(v, s, p) && PopupUnder(v, s, Overlay, p).Some?
    ensures Frontmost(v, s, Drawing(v, s), p) == PopupUnder(v, s, Overlay, p)
    ensures ContentsUnder(v, s, p) == HotCorner && WindowUnder(v, s, p) == None
  {
    UnlockedParts(v, s, p);
  }

  /** Not even an overlay surface, drawn in front of everything else, keeps a hot corner from taking its points. */
  lemma HotCornerBeatsOverlay(v: View, corner: Point -> bool, p: Point)
    requires v.Valid() && !v.AboveTop() && corner(p)
    ensures
      var s := CoveredCorner(corner);
      && Frontmost(v, s, Drawing(v, s), p) == Some(OnLayer(0, SurfaceAt(0, Point(0.0, 0.0))))
      && ContentsUnder(v, s, p) == HotCorner
  {
    CoveredUnder(v, corner, p);
    CornerBeatsPopup(v, CoveredCorner(corner), p);
  }
}
