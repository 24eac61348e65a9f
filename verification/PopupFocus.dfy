/**
 * Popup grabs and keyboard focus. Two separately written priority chains decide who may grab the keyboard for
 * a popup and who has keyboard focus; the grab survives the next focus update exactly when they agree.
 */
module PopupFocus {
  import opened Prelude

  datatype Interactivity = NoKeyboard | Exclusive | OnDemand

  datatype LayerInfo = LayerInfo(layer: Layer, interactivity: Interactivity, alive: bool, mapped: bool,
                                 backdropRule: bool, ignoresZones: bool)
  {
    predicate InBackdrop() {
      mapped && PlacedInBackdrop(layer, backdropRule, ignoresZones)
    }

    /** No background surface that its rule sends behind the overview. */
    predicate InFront() {
      layer == Background && backdropRule ==> !ignoresZones
    }

    predicate CanReceiveKeyboardFocus() {
      interactivity != NoKeyboard
    }
  }

  /**
   * What the two chains look at. `layers` lists the layer surfaces of the active output in layer-map order;
   * `aboveTop` says its fullscreen window is rendered above the top layer.
   */
  datatype Desktop = Desktop(
    exitDialogOpen: bool,
    locked: bool,
    lockFocus: Option<SurfaceId>,
    screenshotUiOpen: bool,
    mruOpen: bool,
    overviewOpen: bool,
    outputActive: bool,
    aboveTop: bool,
    layers: seq<SurfaceId>,
    info: SurfaceId -> LayerInfo,
    layoutFocus: Option<SurfaceId>)
  {
    /** Fullscreen windows are rendered above the top layer only while the overview is closed. */
    predicate Consistent() {
      aboveTop ==> !overviewOpen
    }
  }

  datatype KeyboardFocus =
    | Layout(window: Option<SurfaceId>)
    | LayerShell(layer: SurfaceId)
    | LockScreen(lock: Option<SurfaceId>)
    | ScreenshotUi
    | ExitConfirmDialog
    | Overview
    | Mru
  {
    function Surface(): Option<SurfaceId> {
      match this
      case Layout(s) => s
      case LayerShell(s) => Some(s)
      case LockScreen(s) => s
      case _ => None
    }
  }

  datatype PopupGrab = PopupGrab(root: SurfaceId, hasKeyboardGrab: bool)

  /** `s` comes no later in the list than `t` does. */
  predicate NotAfter(layers: seq<SurfaceId>, s: SurfaceId, t: SurfaceId) {
    s in layers && (t in layers ==> layers[0] == s || (layers[0] != t && NotAfter(layers[1..], s, t)))
  }

  /** The first surface of `layer` that `wanted` accepts. */
  function FindOn(d: Desktop, layers: seq<SurfaceId>, layer: Layer, wanted: SurfaceId -> bool): (found: Option<SurfaceId>)
    ensures found.Some? ==> found.value in layers && d.info(found.value).layer == layer && wanted(found.value)
    ensures found.None? ==> forall s | s in layers && d.info(s).layer == layer :: !wanted(s)
  {
    if layers == [] then None
    else if d.info(layers[0]).layer == layer && wanted(layers[0]) then Some(layers[0])
    else FindOn(d, layers[1..], layer, wanted)
  }

  // Admission: who may grab.

  /** A surface of the layer takes keyboard input before any window does. */
  predicate LayerHasPriority(d: Desktop, onDemand: Option<SurfaceId>, layer: Layer) {
    exists s | s in d.layers ::
      d.info(s).layer == layer && (d.info(s).interactivity == Exclusive || onDemand == Some(s)) && d.info(s).mapped
  }

  predicate MayGrab(d: Desktop, onDemand: Option<SurfaceId>, root: SurfaceId) {
    if d.exitDialogOpen then false
    else if d.locked then d.lockFocus == Some(root)
    else if d.screenshotUiOpen then false
    else if !d.outputActive then false
    else if root in d.layers then !d.info(root).InBackdrop()
    else
      && !LayerHasPriority(d, onDemand, Overlay)
      && (d.aboveTop || !LayerHasPriority(d, onDemand, Top))
      && d.layoutFocus == Some(root)
  }

  predicate TakesKeyboard(d: Desktop, root: SurfaceId, imeGrabbed: bool) {
    !imeGrabbed && (d.outputActive && root in d.layers ==> d.info(root).CanReceiveKeyboardFocus())
  }

  // Focus: who has it.

  /** An on-demand focus is dropped once its surface is gone, unmapped, in the backdrop, or no longer on-demand. */
  function KeptOnDemand(d: Desktop, onDemand: Option<SurfaceId>): Option<SurfaceId> {
    if onDemand.Some? && d.info(onDemand.value).alive && d.info(onDemand.value).interactivity == OnDemand
       && d.info(onDemand.value).mapped && !d.info(onDemand.value).InBackdrop()
    then onDemand else None
  }

  function AsLayerFocus(s: Option<SurfaceId>): Option<KeyboardFocus> {
    if s.Some? then Some(LayerShell(s.value)) else None
  }

  function GrabOn(d: Desktop, grab: Option<PopupGrab>, layer: Layer): Option<KeyboardFocus> {
    if grab.Some? && grab.value.root in d.layers && d.info(grab.value.root).CanReceiveKeyboardFocus()
       && d.info(grab.value.root).layer == layer
    then Some(LayerShell(grab.value.root)) else None
  }

  function ExclusiveOn(d: Desktop, layer: Layer): Option<KeyboardFocus> {
    AsLayerFocus(FindOn(d, d.layers, layer, (s: SurfaceId) =>
      d.info(s).interactivity == Exclusive && d.info(s).mapped && !d.info(s).InBackdrop()))
  }

  function OnDemandOn(d: Desktop, onDemand: Option<SurfaceId>, layer: Layer): Option<KeyboardFocus> {
    AsLayerFocus(FindOn(d, d.layers, layer, (s: SurfaceId) => onDemand == Some(s)))
  }

  function FocusOn(d: Desktop, onDemand: Option<SurfaceId>, layer: Layer): Option<KeyboardFocus> {
    ExclusiveOn(d, layer).OrElse(OnDemandOn(d, onDemand, layer))
  }

  function LayoutFocus(d: Desktop): Option<KeyboardFocus> {
    if d.layoutFocus.Some? then Some(Layout(d.layoutFocus)) else None
  }

  function OutputFocus(d: Desktop, onDemand: Option<SurfaceId>, grab: Option<PopupGrab>): KeyboardFocus {
    var topGrabs := GrabOn(d, grab, Overlay).OrElse(GrabOn(d, grab, Top));
    var grabs := if d.overviewOpen then topGrabs
                 else topGrabs.OrElse(GrabOn(d, grab, Bottom)).OrElse(GrabOn(d, grab, Background));
    var overlay := grabs.OrElse(FocusOn(d, onDemand, Overlay));
    var focus :=
      if d.aboveTop then
        overlay.OrElse(LayoutFocus(d)).OrElse(FocusOn(d, onDemand, Top))
          .OrElse(FocusOn(d, onDemand, Bottom)).OrElse(FocusOn(d, onDemand, Background))
      else
        var top := overlay.OrElse(FocusOn(d, onDemand, Top));
        var shown := if d.overviewOpen then top.OrElse(Some(Overview)) else top;
        shown.OrElse(OnDemandOn(d, onDemand, Bottom)).OrElse(OnDemandOn(d, onDemand, Background))
          .OrElse(LayoutFocus(d)).OrElse(ExclusiveOn(d, Bottom)).OrElse(ExclusiveOn(d, Background));
    focus.GetOr(Layout(None))
  }

  /** The keyboard focus, `onDemand` having been cleaned up. */
  function ComputedFocus(d: Desktop, onDemand: Option<SurfaceId>, grab: Option<PopupGrab>): KeyboardFocus {
    if d.exitDialogOpen then ExitConfirmDialog
    else if d.locked then LockScreen(d.lockFocus)
    else if d.screenshotUiOpen then ScreenshotUi
    else if d.mruOpen then Mru
    else if d.outputActive then OutputFocus(d, onDemand, grab)
    else Layout(None)
  }

  // The focus by rank.

  /** What can claim the keyboard. */
  datatype Claim =
    | ExitDialogClaim
    | LockClaim
    | ScreenshotClaim
    | SwitcherClaim
    | GrabClaim(surface: SurfaceId)
    | ExclusiveClaim(surface: SurfaceId)
    | OnDemandClaim(surface: SurfaceId)
    | WindowClaim(surface: SurfaceId)
    | OverviewClaim

  /** The claim is made: by what is open, or by a surface of the active output in a state to take the keyboard. */
  predicate Claims(d: Desktop, onDemand: Option<SurfaceId>, grab: Option<PopupGrab>, c: Claim) {
    match c
    case ExitDialogClaim => d.exitDialogOpen
    case LockClaim => d.locked
    case ScreenshotClaim => d.screenshotUiOpen
    case SwitcherClaim => d.mruOpen
    case GrabClaim(s) =>
      && d.outputActive && s in d.layers && grab.Some? && grab.value.root == s
      && d.info(s).interactivity != NoKeyboard
      && (d.overviewOpen ==> d.info(s).layer == Top || d.info(s).layer == Overlay)
    case ExclusiveClaim(s) =>
      d.outputActive && s in d.layers && d.info(s).interactivity == Exclusive && d.info(s).mapped && d.info(s).InFront()
    case OnDemandClaim(s) =>
      && d.outputActive && s in d.layers && onDemand == Some(s)
      && d.info(s).alive && d.info(s).interactivity == OnDemand && d.info(s).mapped && d.info(s).InFront()
    case WindowClaim(s) => d.outputActive && d.layoutFocus == Some(s)
    case OverviewClaim => d.outputActive && d.overviewOpen
  }

  /** Lower ranks come first. A covering fullscreen window outranks the top layer; an overview the lower layers. */
  function Rank(d: Desktop, c: Claim): nat {
    match c
    case ExitDialogClaim => 0
    case LockClaim => 1
    case ScreenshotClaim => 2
    case SwitcherClaim => 3
    case GrabClaim(_) => 4
    case ExclusiveClaim(s) =>
      (match d.info(s).layer
       case Overlay => 5
       case Top => 8
       case Bottom => if d.aboveTop then 11 else 14
       case Background => if d.aboveTop then 13 else 15)
    case OnDemandClaim(s) =>
      (match d.info(s).layer
       case Overlay => 6
       case Top => 9
       case Bottom => if d.aboveTop then 12 else 11
       case Background => if d.aboveTop then 14 else 12)
    case OverviewClaim => 10
    case WindowClaim(_) => if d.aboveTop then 7 else 13
  }

  function FocusFor(d: Desktop, c: Claim): KeyboardFocus {
    match c
    case ExitDialogClaim => ExitConfirmDialog
    case LockClaim => LockScreen(d.lockFocus)
    case ScreenshotClaim => ScreenshotUi
    case SwitcherClaim => Mru
    case GrabClaim(s) => LayerShell(s)
    case ExclusiveClaim(s) => LayerShell(s)
    case OnDemandClaim(s) => LayerShell(s)
    case WindowClaim(s) => Layout(Some(s))
    case OverviewClaim => Overview
  }

  /** `c` comes before `o`, on the same rank by its place in the layer list. */
  predicate Precedes(d: Desktop, c: Claim, o: Claim) {
    || Rank(d, c) < Rank(d, o)
    || (Rank(d, c) == Rank(d, o) && (c.ExclusiveClaim? && o.ExclusiveClaim? ==> NotAfter(d.layers, c.surface, o.surface)))
  }

  /** `c` is made, and comes before every other claim. */
  ghost predicate Wins(d: Desktop, onDemand: Option<SurfaceId>, grab: Option<PopupGrab>, c: Claim) {
    Claims(d, onDemand, grab, c) && forall o | Claims(d, onDemand, grab, o) :: Precedes(d, c, o)
  }

  lemma {:induction false} FindsFirst(d: Desktop, layers: seq<SurfaceId>, layer: Layer, wanted: SurfaceId -> bool, s: SurfaceId)
    requires s in layers && d.info(s).layer == layer && wanted(s)
    ensures FindOn(d, layers, layer, wanted).Some? && NotAfter(layers, FindOn(d, layers, layer, wanted).value, s)
  {
    if layers[0] != s {
      FindsFirst(d, layers[1..], layer, wanted, s);
    }
  }

  lemma ExclusiveClaimsOn(d: Desktop, onDemand: Option<SurfaceId>, grab: Option<PopupGrab>, layer: Layer)
    requires d.outputActive
    ensures match ExclusiveOn(d, layer)
      case Some(LayerShell(s)) =>
        && d.info(s).layer == layer && Claims(d, onDemand, grab, ExclusiveClaim(s))
        && forall t | Claims(d, onDemand, grab, ExclusiveClaim(t)) && d.info(t).layer == layer :: NotAfter(d.layers, s, t)
      case Some(_) => false
      case None => forall t | Claims(d, onDemand, grab, ExclusiveClaim(t)) :: d.info(t).layer != layer
  {
    var wanted := (s: SurfaceId) => d.info(s).interactivity == Exclusive && d.info(s).mapped && !d.info(s).InBackdrop();
    assert ExclusiveOn(d, layer) == AsLayerFocus(FindOn(d, d.layers, layer, wanted));
    forall t | Claims(d, onDemand, grab, ExclusiveClaim(t)) && d.info(t).layer == layer
      ensures FindOn(d, d.layers, layer, wanted).Some? && NotAfter(d.layers, FindOn(d, d.layers, layer, wanted).value, t)
    {
      FindsFirst(d, d.layers, layer, wanted, t);
    }
  }

  lemma OnDemandClaimsOn(d: Desktop, onDemand: Option<SurfaceId>, grab: Option<PopupGrab>, layer: Layer)
    requires d.outputActive
    ensures match OnDemandOn(d, KeptOnDemand(d, onDemand), layer)
      case Some(LayerShell(s)) => d.info(s).layer == layer && Claims(d, onDemand, grab, OnDemandClaim(s))
      case Some(_) => false
      case None => forall t | Claims(d, onDemand, grab, OnDemandClaim(t)) :: d.info(t).layer != layer
  {
  }

  function AsExclusive(f: Option<KeyboardFocus>): Option<Claim> {
    if f.Some? && f.value.LayerShell? then Some(ExclusiveClaim(f.value.layer)) else None
  }

  function AsOnDemand(f: Option<KeyboardFocus>): Option<Claim> {
    if f.Some? && f.value.LayerShell? then Some(OnDemandClaim(f.value.layer)) else None
  }

  /** What kind of claim has rank `r`. */
  datatype Slot = OnlySlot(claim: Claim) | GrabSlot | ExclusiveSlot(layer: Layer) | OnDemandSlot(layer: Layer) | WindowSlot | NoSlot

  function SlotAt(d: Desktop, r: nat): Slot {
    if r == 0 then OnlySlot(ExitDialogClaim)
    else if r == 1 then OnlySlot(LockClaim)
    else if r == 2 then OnlySlot(ScreenshotClaim)
    else if r == 3 then OnlySlot(SwitcherClaim)
    else if r == 4 then GrabSlot
    else if r == 5 then ExclusiveSlot(Overlay)
    else if r == 6 then OnDemandSlot(Overlay)
    else if r == 7 then if d.aboveTop then WindowSlot else NoSlot
    else if r == 8 then ExclusiveSlot(Top)
    else if r == 9 then OnDemandSlot(Top)
    else if r == 10 then OnlySlot(OverviewClaim)
    else if r == 11 then if d.aboveTop then ExclusiveSlot(Bottom) else OnDemandSlot(Bottom)
    else if r == 12 then OnDemandSlot(if d.aboveTop then Bottom else Background)
    else if r == 13 then if d.aboveTop then ExclusiveSlot(Background) else WindowSlot
    else if r == 14 then if d.aboveTop then OnDemandSlot(Background) else ExclusiveSlot(Bottom)
    else if r == 15 && !d.aboveTop then ExclusiveSlot(Background)
    else NoSlot
  }

  predicate Fits(d: Desktop, slot: Slot, c: Claim) {
    match slot
    case OnlySlot(only) => c == only
    case GrabSlot => c.GrabClaim?
    case ExclusiveSlot(layer) => c.ExclusiveClaim? && d.info(c.surface).layer == layer
    case OnDemandSlot(layer) => c.OnDemandClaim? && d.info(c.surface).layer == layer
    case WindowSlot => c.WindowClaim?
    case NoSlot => false
  }

  lemma SlotHoldsRank(d: Desktop, r: nat, c: Claim)
    ensures Rank(d, c) == r ==> Fits(d, SlotAt(d, r), c)
    ensures Fits(d, SlotAt(d, r), c) ==> Rank(d, c) == r
  {
  }

  /** The first claim in a slot. */
  function ClaimIn(d: Desktop, onDemand: Option<SurfaceId>, grab: Option<PopupGrab>, slot: Slot): Option<Claim> {
    match slot
    case OnlySlot(only) => if Claims(d, onDemand, grab, only) then Some(only) else None
    case GrabSlot =>
      if grab.Some? && Claims(d, onDemand, grab, GrabClaim(grab.value.root)) then Some(GrabClaim(grab.value.root)) else None
    case ExclusiveSlot(layer) => if d.outputActive then AsExclusive(ExclusiveOn(d, layer)) else None
    case OnDemandSlot(layer) =>
      if d.outputActive then AsOnDemand(OnDemandOn(d, KeptOnDemand(d, onDemand), layer)) else None
    case WindowSlot => if d.outputActive && d.layoutFocus.Some? then Some(WindowClaim(d.layoutFocus.value)) else None
    case NoSlot => None
  }

  lemma ClaimInIsFirst(d: Desktop, onDemand: Option<SurfaceId>, grab: Option<PopupGrab>, slot: Slot)
    requires slot.OnlySlot? ==> !slot.claim.ExclusiveClaim?
    ensures match ClaimIn(d, onDemand, grab, slot)
      case Some(c) =>
        && Claims(d, onDemand, grab, c) && Fits(d, slot, c)
        && forall o | Claims(d, onDemand, grab, o) && Fits(d, slot, o) ::
             if c.ExclusiveClaim? then o.ExclusiveClaim? && NotAfter(d.layers, c.surface, o.surface) else o == c
      case None => forall o | Claims(d, onDemand, grab, o) :: !Fits(d, slot, o)
  {
    match slot
    case ExclusiveSlot(layer) => if d.outputActive { ExclusiveClaimsOn(d, onDemand, grab, layer); }
    case OnDemandSlot(layer) => if d.outputActive { OnDemandClaimsOn(d, onDemand, grab, layer); }
    case _ =>
  }

  function ClaimAt(d: Desktop, onDemand: Option<SurfaceId>, grab: Option<PopupGrab>, r: nat): Option<Claim> {
    ClaimIn(d, onDemand, grab, SlotAt(d, r))
  }

  lemma ClaimAtIsFirst(d: Desktop, onDemand: Option<SurfaceId>, grab: Option<PopupGrab>, r: nat)
    ensures match ClaimAt(d, onDemand, grab, r)
      case Some(c) =>
        && Claims(d, onDemand, grab, c) && Rank(d, c) == r
        && forall o | Claims(d, onDemand, grab, o) && Rank(d, o) == r :: Precedes(d, c, o)
      case None => forall o | Claims(d, onDemand, grab, o) :: Rank(d, o) != r
  {
    ClaimInIsFirst(d, onDemand, grab, SlotAt(d, r));
    forall o ensures Rank(d, o) == r <==> Fits(d, SlotAt(d, r), o) {
      SlotHoldsRank(d, r, o);
    }
  }

  /** The first claim of rank `r` or more. */
  function ClaimFrom(d: Desktop, onDemand: Option<SurfaceId>, grab: Option<PopupGrab>, r: nat): Option<Claim>
    decreases 16 - r
  {
    if r >= 16 then None else ClaimAt(d, onDemand, grab, r).OrElse(ClaimFrom(d, onDemand, grab, r + 1))
  }

  lemma {:induction false} ClaimFromWins(d: Desktop, onDemand: Option<SurfaceId>, grab: Option<PopupGrab>, r: nat)
    ensures match ClaimFrom(d, onDemand, grab, r)
      case Some(c) =>
        && Claims(d, onDemand, grab, c) && r <= Rank(d, c)
        && forall o | Claims(d, onDemand, grab, o) && r <= Rank(d, o) :: Precedes(d, c, o)
      case None => forall o | Claims(d, onDemand, grab, o) :: Rank(d, o) < r
    decreases 16 - r
  {
    if r < 16 {
      ClaimAtIsFirst(d, onDemand, grab, r);
      ClaimFromWins(d, onDemand, grab, r + 1);
    }
  }

  function AsFocus(d: Desktop, c: Option<Claim>): Option<KeyboardFocus> {
    if c.Some? then Some(FocusFor(d, c.value)) else None
  }

  lemma SlotFocuses(d: Desktop, onDemand: Option<SurfaceId>, grab: Option<PopupGrab>, layer: Layer)
    requires d.outputActive
    ensures AsFocus(d, ClaimIn(d, onDemand, grab, ExclusiveSlot(layer))) == ExclusiveOn(d, layer)
    ensures AsFocus(d, ClaimIn(d, onDemand, grab, OnDemandSlot(layer))) == OnDemandOn(d, KeptOnDemand(d, onDemand), layer)
    ensures AsFocus(d, ClaimIn(d, onDemand, grab, WindowSlot)) == LayoutFocus(d)
  {
  }

  function GrabFocus(d: Desktop, grab: Option<PopupGrab>): Option<KeyboardFocus> {
    var top := GrabOn(d, grab, Overlay).OrElse(GrabOn(d, grab, Top));
    if d.overviewOpen then top else top.OrElse(GrabOn(d, grab, Bottom)).OrElse(GrabOn(d, grab, Background))
  }

  lemma GrabSlotFocuses(d: Desktop, onDemand: Option<SurfaceId>, grab: Option<PopupGrab>)
    requires d.outputActive
    ensures AsFocus(d, ClaimIn(d, onDemand, grab, GrabSlot)) == GrabFocus(d, grab)
  {
  }

  /** The focus of the first claim of rank `r` or more. */
  function FocusFrom(d: Desktop, onDemand: Option<SurfaceId>, grab: Option<PopupGrab>, r: nat): Option<KeyboardFocus> {
    AsFocus(d, ClaimFrom(d, onDemand, grab, r))
  }

  lemma FocusFromNext(d: Desktop, onDemand: Option<SurfaceId>, grab: Option<PopupGrab>, r: nat)
    requires r < 16
    ensures FocusFrom(d, onDemand, grab, r) ==
      AsFocus(d, ClaimIn(d, onDemand, grab, SlotAt(d, r))).OrElse(FocusFrom(d, onDemand, grab, r + 1))
  {
  }

  /** What the links of the chain give: by grabs, the layout, and exclusive and on-demand surfaces of each layer. */
  datatype Links = Links(aboveTop: bool, overviewOpen: bool, grabs: Option<KeyboardFocus>, window: Option<KeyboardFocus>,
                         exclusive: Layer -> Option<KeyboardFocus>, onDemand: Layer -> Option<KeyboardFocus>)
  {
    function Link(slot: Slot): Option<KeyboardFocus> {
      match slot
      case GrabSlot => grabs
      case ExclusiveSlot(layer) => exclusive(layer)
      case OnDemandSlot(layer) => onDemand(layer)
      case WindowSlot => window
      case OnlySlot(only) => if only == OverviewClaim && overviewOpen then Some(Overview) else None
      case NoSlot => None
    }

    function On(layer: Layer): Option<KeyboardFocus> {
      exclusive(layer).OrElse(onDemand(layer))
    }

    function Chain(): Option<KeyboardFocus> {
      var overlay := grabs.OrElse(On(Overlay));
      if aboveTop then overlay.OrElse(window).OrElse(On(Top)).OrElse(On(Bottom)).OrElse(On(Background))
      else
        var top := overlay.OrElse(On(Top));
        var shown := if overviewOpen then top.OrElse(Some(Overview)) else top;
        shown.OrElse(onDemand(Bottom)).OrElse(onDemand(Background))
          .OrElse(window).OrElse(exclusive(Bottom)).OrElse(exclusive(Background))
    }
  }

  function LinksOf(d: Desktop, onDemand: Option<SurfaceId>, grab: Option<PopupGrab>): Links {
    Links(d.aboveTop, d.overviewOpen, GrabFocus(d, grab), LayoutFocus(d),
          (layer: Layer) => ExclusiveOn(d, layer), (layer: Layer) => OnDemandOn(d, onDemand, layer))
  }

  /** `f` gives, from rank 4 on, the focus of the first link of that rank or more. */
  ghost predicate ByRank(d: Desktop, links: Links, f: nat -> Option<KeyboardFocus>) {
    f(16).None? && forall r: nat | 4 <= r < 16 :: f(r) == links.Link(SlotAt(d, r)).OrElse(f(r + 1))
  }

  lemma LowChain(d: Desktop, links: Links, f: nat -> Option<KeyboardFocus>)
    requires ByRank(d, links, f)
    ensures f(11) ==
      if d.aboveTop then links.On(Bottom).OrElse(links.On(Background))
      else links.onDemand(Bottom).OrElse(links.onDemand(Background)).OrElse(links.window)
             .OrElse(links.exclusive(Bottom)).OrElse(links.exclusive(Background))
  {
    assert f(15) == (if d.aboveTop then None else links.exclusive(Background)).OrElse(f(16));
    assert f(14) == (if d.aboveTop then links.onDemand(Background) else links.exclusive(Bottom)).OrElse(f(15));
    assert f(13) == (if d.aboveTop then links.exclusive(Background) else links.window).OrElse(f(14));
    assert f(12) == links.onDemand(if d.aboveTop then Bottom else Background).OrElse(f(13));
    assert f(11) == (if d.aboveTop then links.exclusive(Bottom) else links.onDemand(Bottom)).OrElse(f(12));
  }

  lemma HighChain(d: Desktop, links: Links, f: nat -> Option<KeyboardFocus>)
    requires ByRank(d, links, f)
    ensures
      var overlay := links.grabs.OrElse(links.On(Overlay));
      f(4) == overlay.OrElse(if d.aboveTop then links.window else None).OrElse(links.On(Top))
                .OrElse(if links.overviewOpen then Some(Overview) else None).OrElse(f(11))
  {
    assert f(10) == (if links.overviewOpen then Some(Overview) else None).OrElse(f(11));
    assert f(9) == links.onDemand(Top).OrElse(f(10)) && f(8) == links.exclusive(Top).OrElse(f(9));
    assert f(7) == (if d.aboveTop then links.window else None).OrElse(f(8));
    assert f(6) == links.onDemand(Overlay).OrElse(f(7)) && f(5) == links.exclusive(Overlay).OrElse(f(6));
    assert f(4) == links.grabs.OrElse(f(5));
  }

  /** The chain of ranks is the chain of the layers, whatever its links give. */
  lemma ChainOfRanks(d: Desktop, links: Links, f: nat -> Option<KeyboardFocus>)
    requires ByRank(d, links, f) && links.aboveTop == d.aboveTop && !(links.aboveTop && links.overviewOpen)
    ensures f(4) == links.Chain()
  {
    LowChain(d, links, f);
    HighChain(d, links, f);
  }

  lemma OutputFocusIsChain(d: Desktop, onDemand: Option<SurfaceId>, grab: Option<PopupGrab>)
    ensures OutputFocus(d, onDemand, grab) == LinksOf(d, onDemand, grab).Chain().GetOr(Layout(None))
  {
  }

  lemma LinkNext(d: Desktop, onDemand: Option<SurfaceId>, grab: Option<PopupGrab>, r: nat)
    requires d.outputActive && 4 <= r < 16
    ensures FocusFrom(d, onDemand, grab, r) ==
      LinksOf(d, KeptOnDemand(d, onDemand), grab).Link(SlotAt(d, r)).OrElse(FocusFrom(d, onDemand, grab, r + 1))
  {
    FocusFromNext(d, onDemand, grab, r);
    match SlotAt(d, r)
    case GrabSlot => GrabSlotFocuses(d, onDemand, grab);
    case ExclusiveSlot(layer) => SlotFocuses(d, onDemand, grab, layer);
    case OnDemandSlot(layer) => SlotFocuses(d, onDemand, grab, layer);
    case WindowSlot => SlotFocuses(d, onDemand, grab, Top);
    case _ =>
  }

  lemma OutputFocusByRank(d: Desktop, onDemand: Option<SurfaceId>, grab: Option<PopupGrab>)
    requires d.outputActive && d.Consistent()
    ensures OutputFocus(d, KeptOnDemand(d, onDemand), grab) == FocusFrom(d, onDemand, grab, 4).GetOr(Layout(None))
  {
    var kept := KeptOnDemand(d, onDemand);
    var f := (r: nat) => FocusFrom(d, onDemand, grab, r);
    assert ByRank(d, LinksOf(d, kept, grab), f) by {
      forall r: nat | 4 <= r < 16 ensures f(r) == LinksOf(d, kept, grab).Link(SlotAt(d, r)).OrElse(f(r + 1)) {
        LinkNext(d, onDemand, grab, r);
      }
    }
    ChainOfRanks(d, LinksOf(d, kept, grab), f);
    OutputFocusIsChain(d, kept, grab);
  }

  lemma InactiveClaimsNothing(d: Desktop, onDemand: Option<SurfaceId>, grab: Option<PopupGrab>)
    requires !d.outputActive
    ensures FocusFrom(d, onDemand, grab, 4).None?
  {
    ClaimFromWins(d, onDemand, grab, 4);
  }

  /**
   * The keyboard focus, for every desktop, on-demand focus and grab: it is that of the claim that comes before all
   * others, and no window's if there is none.
   */
  lemma FocusIsBestClaim(d: Desktop, onDemand: Option<SurfaceId>, grab: Option<PopupGrab>)
    requires d.Consistent()
    ensures var focus := ComputedFocus(d, KeptOnDemand(d, onDemand), grab);
      || (exists c :: Wins(d, onDemand, grab, c) && focus == FocusFor(d, c))
      || (focus == Layout(None) && forall c :: !Claims(d, onDemand, grab, c))
  {
    ClaimFromWins(d, onDemand, grab, 0);
    if d.outputActive {
      OutputFocusByRank(d, onDemand, grab);
    } else {
      InactiveClaimsNothing(d, onDemand, grab);
    }
    FocusFromNext(d, onDemand, grab, 0);
    FocusFromNext(d, onDemand, grab, 1);
    FocusFromNext(d, onDemand, grab, 2);
    FocusFromNext(d, onDemand, grab, 3);
    var best := ClaimFrom(d, onDemand, grab, 0);
    assert best.Some? ==> Wins(d, onDemand, grab, best.value);
  }

  lemma {:induction false} NotAfterEither(layers: seq<SurfaceId>, s: SurfaceId, t: SurfaceId)
    requires NotAfter(layers, s, t) && NotAfter(layers, t, s)
    ensures s == t
  {
    if layers[0] != s && layers[0] != t {
      NotAfterEither(layers[1..], s, t);
    }
  }

  /** Only one claim comes before all others, so the focus is determined. */
  lemma OnlyOneWins(d: Desktop, onDemand: Option<SurfaceId>, grab: Option<PopupGrab>, c: Claim, o: Claim)
    requires Wins(d, onDemand, grab, c) && Wins(d, onDemand, grab, o)
    ensures c == o
  {
    assert Precedes(d, c, o) && Precedes(d, o, c);
    SlotHoldsRank(d, Rank(d, c), c);
    SlotHoldsRank(d, Rank(d, c), o);
    if c.ExclusiveClaim? && o.ExclusiveClaim? {
      NotAfterEither(d.layers, c.surface, o.surface);
    }
  }

  // Focus and admission.

  /** Whatever surface has the focus may also grab, once the on-demand focus has been cleaned up. */
  lemma FocusedMayGrab(d: Desktop, onDemand: Option<SurfaceId>, root: SurfaceId)
    requires d.Consistent() && KeptOnDemand(d, onDemand) == onDemand
    requires d.layoutFocus.Some? ==> d.layoutFocus.value !in d.layers
    requires ComputedFocus(d, onDemand, None).Surface() == Some(root)
    ensures MayGrab(d, onDemand, root)
  {
    FocusIsBestClaim(d, onDemand, None);
    var c :| Wins(d, onDemand, None, c) && ComputedFocus(d, onDemand, None) == FocusFor(d, c);
    if c.WindowClaim? {
      NothingInFront(d, onDemand, c, Overlay);
      if !d.aboveTop {
        NothingInFront(d, onDemand, c, Top);
      }
    }
  }

  lemma NothingInFront(d: Desktop, onDemand: Option<SurfaceId>, c: Claim, layer: Layer)
    requires KeptOnDemand(d, onDemand) == onDemand && c.WindowClaim? && Wins(d, onDemand, None, c)
    requires layer == Overlay || (layer == Top && !d.aboveTop)
    ensures !LayerHasPriority(d, onDemand, layer)
  {
    if LayerHasPriority(d, onDemand, layer) {
      var s :| s in d.layers && d.info(s).layer == layer &&
        (d.info(s).interactivity == Exclusive || onDemand == Some(s)) && d.info(s).mapped;
      var o := if onDemand == Some(s) then OnDemandClaim(s) else ExclusiveClaim(s);
      assert Claims(d, onDemand, None, o);
    }
  }

  /** A mapped surface that a rule sends behind the overview may not grab. */
  lemma BackdropMayNotGrab(d: Desktop, onDemand: Option<SurfaceId>, root: SurfaceId)
    requires root in d.layers && d.info(root).mapped && !d.info(root).InFront() && !d.locked
    ensures !MayGrab(d, onDemand, root)
  {
  }

  /** A grab whose root takes no keyboard input leaves the focus where it would be without. */
  lemma PointerGrabLeavesFocus(d: Desktop, onDemand: Option<SurfaceId>, grab: PopupGrab)
    requires grab.root !in d.layers || d.info(grab.root).interactivity == NoKeyboard
    ensures ComputedFocus(d, onDemand, Some(grab)) == ComputedFocus(d, onDemand, None)
  {
  }

  /** Only an input-method grab, and a layer surface without keyboard interactivity, keep a grab from the keyboard. */
  lemma KeyboardIsTakenUnless(d: Desktop, root: SurfaceId, imeGrabbed: bool)
    ensures !TakesKeyboard(d, root, imeGrabbed) <==>
      imeGrabbed || (d.outputActive && root in d.layers && d.info(root).interactivity == NoKeyboard)
  {
  }

  /** The on-demand focus sits on a layer that comes before the windows in the focus chain but not in admission. */
  predicate LowOnDemandFocus(d: Desktop, onDemand: Option<SurfaceId>) {
    var kept := KeptOnDemand(d, onDemand);
    kept.Some? && kept.value in d.layers && (d.info(kept.value).layer == Bottom || d.info(kept.value).layer == Background)
  }

  /** When admission and focus agree about an admitted root. */
  predicate ChainsAgree(d: Desktop, onDemand: Option<SurfaceId>, root: SurfaceId) {
    || d.locked
    || (!d.mruOpen &&
        (if root in d.layers then !d.overviewOpen || d.info(root).layer == Top || d.info(root).layer == Overlay
         else d.aboveTop || (!d.overviewOpen && !LowOnDemandFocus(d, onDemand))))
  }

  lemma NoPriorityNoFocus(d: Desktop, onDemand: Option<SurfaceId>, layer: Layer)
    requires layer == Overlay || layer == Top
    requires !LayerHasPriority(d, onDemand, layer)
    ensures FocusOn(d, KeptOnDemand(d, onDemand), layer).None?
  {
  }

  lemma LowOnDemandDecidesOn(d: Desktop, onDemand: Option<SurfaceId>, layer: Layer)
    ensures OnDemandOn(d, KeptOnDemand(d, onDemand), layer).Some? <==>
      var kept := KeptOnDemand(d, onDemand); kept.Some? && kept.value in d.layers && d.info(kept.value).layer == layer
  {
  }

  lemma LayerRootAgrees(d: Desktop, onDemand: Option<SurfaceId>, root: SurfaceId)
    requires d.Consistent() && !d.locked && !d.mruOpen
    requires MayGrab(d, onDemand, root) && root in d.layers && d.info(root).CanReceiveKeyboardFocus()
    ensures ComputedFocus(d, KeptOnDemand(d, onDemand), Some(PopupGrab(root, true))).Surface() == Some(root)
      <==> ChainsAgree(d, onDemand, root)
  {
  }

  lemma WindowRootAgrees(d: Desktop, onDemand: Option<SurfaceId>, root: SurfaceId)
    requires d.Consistent() && !d.locked && !d.mruOpen
    requires MayGrab(d, onDemand, root) && root !in d.layers
    ensures ComputedFocus(d, KeptOnDemand(d, onDemand), Some(PopupGrab(root, true))).Surface() == Some(root)
      <==> ChainsAgree(d, onDemand, root)
  {
    NoPriorityNoFocus(d, onDemand, Overlay);
    if !d.aboveTop {
      NoPriorityNoFocus(d, onDemand, Top);
      LowOnDemandDecidesOn(d, onDemand, Bottom);
      LowOnDemandDecidesOn(d, onDemand, Background);
    }
  }

  /**
   * For every desktop, an admitted keyboard grab is also where the focus goes exactly when the chains agree:
   * always on the lock screen; otherwise with the switcher closed and, for a layer root, no overview over it,
   * for a window root, neither an overview nor an on-demand focus on the lower layers (unless it is fullscreen).
   */
  lemma AdmittedGrabHasFocusIff(d: Desktop, onDemand: Option<SurfaceId>, root: SurfaceId, imeGrabbed: bool)
    requires d.Consistent() && MayGrab(d, onDemand, root) && TakesKeyboard(d, root, imeGrabbed)
    ensures ComputedFocus(d, KeptOnDemand(d, onDemand), Some(PopupGrab(root, true))).Surface() == Some(root)
      <==> ChainsAgree(d, onDemand, root)
  {
    if !d.locked && !d.mruOpen {
      if root in d.layers {
        LayerRootAgrees(d, onDemand, root);
      } else {
        WindowRootAgrees(d, onDemand, root);
      }
    }
  }

  /** Without a fullscreen window, an on-demand focus on a bottom layer is such a disagreement. */
  lemma LowOnDemandFocusBreaksGrab()
    ensures exists d: Desktop, onDemand: Option<SurfaceId>, root: SurfaceId ::
      d.Consistent() && !d.overviewOpen && !d.mruOpen && MayGrab(d, onDemand, root) && TakesKeyboard(d, root, false) &&
      ComputedFocus(d, KeptOnDemand(d, onDemand), Some(PopupGrab(root, true))).Surface() != Some(root)
  {
    var info := (s: SurfaceId) => LayerInfo(Bottom, OnDemand, true, true, false, false);
    var d := Desktop(false, false, None, false, false, false, true, false, [1], info, Some(2));
    assert 1 in d.layers;
    AdmittedGrabHasFocusIff(d, Some(1), 2, false);
  }

  /** The seat: current focus, on-demand layer focus and popup grab. */
  class Seat {
    var keyboardFocus: KeyboardFocus
    var onDemand: Option<SurfaceId>
    var popupGrab: Option<PopupGrab>

    constructor ()
      ensures keyboardFocus == Layout(None) && onDemand == None && popupGrab == None
    {
      keyboardFocus := Layout(None);
      onDemand := None;
      popupGrab := None;
    }

    /**
     * A client asks for a popup grab. `grabbable` is the popup manager's answer; the mismatches say another
     * grab is in the way on the keyboard or the pointer.
     */
    method Grab(d: Desktop, root: SurfaceId, grabbable: bool, imeGrabbed: bool,
                keyboardMismatch: bool, pointerMismatch: bool) returns (granted: bool)
      modifies this`popupGrab
      ensures granted <==>
        (MayGrab(d, onDemand, root) && grabbable &&
         !((TakesKeyboard(d, root, imeGrabbed) && keyboardMismatch) || pointerMismatch))
      ensures popupGrab == if granted then Some(PopupGrab(root, TakesKeyboard(d, root, imeGrabbed))) else old(popupGrab)
    {
      if d.exitDialogOpen {
        return false;
      } else if d.locked {
        if d.lockFocus != Some(root) {
          return false;
        }
      } else if d.screenshotUiOpen {
        return false;
      } else if d.outputActive {
        if root in d.layers {
          if d.info(root).InBackdrop() {
            return false;
          }
        } else {
          if LayerHasPriority(d, onDemand, Overlay) {
            return false;
          }
          if !d.aboveTop && LayerHasPriority(d, onDemand, Top) {
            return false;
          }
          if d.layoutFocus != Some(root) {
            return false;
          }
        }
      } else {
        return false;
      }
      if !grabbable {
        return false;
      }
      var takesKeyboard := TakesKeyboard(d, root, imeGrabbed);
      if (takesKeyboard && keyboardMismatch) || pointerMismatch {
        return false;
      }
      popupGrab := Some(PopupGrab(root, takesKeyboard));
      return true;
    }

    /** Recomputes the focus; a keyboard grab whose root is not the new focus is torn down. */
    method UpdateKeyboardFocus(d: Desktop)
      modifies this
      ensures onDemand == KeptOnDemand(d, old(onDemand))
      ensures keyboardFocus == ComputedFocus(d, onDemand, old(popupGrab))
      ensures popupGrab == if GrabTornDown(old(keyboardFocus), keyboardFocus, old(popupGrab)) then None else old(popupGrab)
    {
      if onDemand.Some? {
        var info := d.info(onDemand.value);
        var good := info.alive && info.interactivity == OnDemand;
        if info.mapped {
          if info.InBackdrop() {
            good := false;
          }
        } else {
          good := false;
        }
        if !good {
          onDemand := None;
        }
      }
      var focus: KeyboardFocus;
      if d.exitDialogOpen {
        focus := ExitConfirmDialog;
      } else if d.locked {
        focus := LockScreen(d.lockFocus);
      } else if d.screenshotUiOpen {
        focus := ScreenshotUi;
      } else if d.mruOpen {
        focus := Mru;
      } else if d.outputActive {
        focus := FocusOnOutput(d);
      } else {
        focus := Layout(None);
      }
      if keyboardFocus != focus {
        if popupGrab.Some? && popupGrab.value.hasKeyboardGrab && Some(popupGrab.value.root) != focus.Surface() {
          popupGrab := None;
        }
        keyboardFocus := focus;
      }
    }

    method FocusOnOutput(d: Desktop) returns (focus: KeyboardFocus)
      ensures focus == OutputFocus(d, onDemand, popupGrab)
    {
      var surface := GrabOn(d, popupGrab, Overlay);
      surface := surface.OrElse(GrabOn(d, popupGrab, Top));
      if !d.overviewOpen {
        surface := surface.OrElse(GrabOn(d, popupGrab, Bottom));
        surface := surface.OrElse(GrabOn(d, popupGrab, Background));
      }
      surface := surface.OrElse(FocusOn(d, onDemand, Overlay));
      if d.aboveTop {
        surface := surface.OrElse(LayoutFocus(d));
        surface := surface.OrElse(FocusOn(d, onDemand, Top));
        surface := surface.OrElse(FocusOn(d, onDemand, Bottom));
        surface := surface.OrElse(FocusOn(d, onDemand, Background));
      } else {
        surface := surface.OrElse(FocusOn(d, onDemand, Top));
        if d.overviewOpen {
          surface := Some(surface.GetOr(Overview));
        }
        surface := surface.OrElse(OnDemandOn(d, onDemand, Bottom));
        surface := surface.OrElse(OnDemandOn(d, onDemand, Background));
        surface := surface.OrElse(LayoutFocus(d));
        surface := surface.OrElse(ExclusiveOn(d, Bottom));
        surface := surface.OrElse(ExclusiveOn(d, Background));
      }
      focus := surface.GetOr(Layout(None));
    }

    /**
     * A granted keyboard grab survives the next focus update when the chains agree, and the focus is on its root;
     * a grab of the pointer alone always survives it.
     */
    method GrabThenUpdate(d: Desktop, root: SurfaceId, grabbable: bool, imeGrabbed: bool,
                          keyboardMismatch: bool, pointerMismatch: bool) returns (granted: bool)
      requires d.Consistent()
      modifies this
      ensures granted && !TakesKeyboard(d, root, imeGrabbed) ==> popupGrab == Some(PopupGrab(root, false))
      ensures granted && TakesKeyboard(d, root, imeGrabbed) ==>
        if ChainsAgree(d, old(onDemand), root) then
          popupGrab == Some(PopupGrab(root, true)) && keyboardFocus.Surface() == Some(root)
        else
          keyboardFocus.Surface() != Some(root) && (popupGrab == None <==> keyboardFocus != old(keyboardFocus))
    {
      granted := Grab(d, root, grabbable, imeGrabbed, keyboardMismatch, pointerMismatch);
      if granted && TakesKeyboard(d, root, imeGrabbed) {
        AdmittedGrabHasFocusIff(d, onDemand, root, imeGrabbed);
      }
      UpdateKeyboardFocus(d);
    }
  }

  /** The focus has changed away from the root of a keyboard grab. */
  predicate GrabTornDown(before: KeyboardFocus, after: KeyboardFocus, grab: Option<PopupGrab>) {
    before != after && grab.Some? && grab.value.hasKeyboardGrab && Some(grab.value.root) != after.Surface()
  }
}
