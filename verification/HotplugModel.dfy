/**
 * Hot-plug on a TTY: DRM devices, their connectors, and the reconciliation that drives the enabled surfaces
 * towards the output configuration.
 */
module HotplugModel {
  import opened Prelude

  type Node = nat
  type Crtc = nat
  type ConnectorId = nat

  /** A connector name, and the make, model and serial of the monitor on it if they are known. */
  datatype OutputName = OutputName(connector: string, monitor: Option<string>)
  {
    function Formatted(): string {
      monitor.GetOr(connector)
    }

    predicate Matches(target: string) {
      target == connector || monitor == Some(target)
    }

    function Unnamed(): OutputName {
      OutputName(connector, None)
    }
  }

  predicate IsLaptopPanel(connector: string) {
    |connector| >= 4 && (connector[..4] == "eDP-" || connector[..4] == "LVDS" || connector[..4] == "DSI-")
  }

  /** A connector as the DRM scanner reports it on its CRTC. */
  datatype Connector = Connector(id: ConnectorId, name: OutputName, connected: bool, nonDesktop: bool)

  datatype Surface = Surface(name: OutputName, connector: ConnectorId)

  datatype Device = Device(
    renderNode: Option<Node>,
    scan: map<Crtc, Connector>,
    surfaces: map<Crtc, Surface>,
    known: map<Crtc, OutputName>,
    hasLease: bool,
    nonDesktop: set<(ConnectorId, Crtc)>)

  type Devices = map<Node, Device>

  datatype OutputConfig = OutputConfig(name: string, off: bool)

  datatype Config = Config(outputs: seq<OutputConfig>, keepPanelOnLidClose: bool)

  /** The first configuration section that matches the output says whether it is off. */
  predicate IsOff(outputs: seq<OutputConfig>, name: OutputName) {
    outputs != [] && (if name.Matches(outputs[0].name) then outputs[0].off else IsOff(outputs[1..], name))
  }

  predicate ExternalConnected(devices: Devices) {
    exists n :: n in devices && exists c :: c in devices[n].scan && !IsLaptopPanel(devices[n].scan[c].name.connector)
  }

  predicate DisablePanels(devices: Devices, config: Config, lidClosed: bool) {
    lidClosed && !config.keepPanelOnLidClose && ExternalConnected(devices)
  }

  predicate Wanted(config: Config, disablePanels: bool, name: OutputName) {
    !(IsOff(config.outputs, name) || (disablePanels && IsLaptopPanel(name.connector)))
  }

  function KnownName(device: Device, c: Crtc, disableNames: bool): OutputName
    requires c in device.scan
  {
    if disableNames || c !in device.known then device.scan[c].name.Unnamed() else device.known[c]
  }

  /** Whether an output of this name should be on. */
  type Policy = OutputName -> bool

  function PolicyOf(config: Config, disablePanels: bool): Policy {
    name => Wanted(config, disablePanels, name)
  }

  function PolicyFor(devices: Devices, config: Config, lidClosed: bool): Policy {
    PolicyOf(config, DisablePanels(devices, config, lidClosed))
  }

  /** A connected connector that no surface and no lease offer uses yet, and that should be on. */
  predicate ToConnect(device: Device, c: Crtc, policy: Policy, disableNames: bool) {
    && c in device.scan && device.scan[c].connected
    && c !in device.surfaces && (device.scan[c].id, c) !in device.nonDesktop
    && policy(KnownName(device, c, disableNames))
  }

  predicate ToDisconnect(device: Device, c: Crtc, policy: Policy) {
    c in device.surfaces && !policy(device.surfaces[c].name)
  }

  /** Lit after one pass; `failing` are the CRTCs that cannot be lit. */
  predicate LitAfter(device: Device, c: Crtc, policy: Policy, disableNames: bool, failing: set<Crtc>) {
    || (c in device.surfaces && !ToDisconnect(device, c, policy))
    || (ToConnect(device, c, policy, disableNames) && !device.scan[c].nonDesktop && c !in failing)
  }

  function SurfacesAfter(device: Device, policy: Policy, disableNames: bool, failing: set<Crtc>): map<Crtc, Surface> {
    map c | c in device.surfaces.Keys + device.scan.Keys && LitAfter(device, c, policy, disableNames, failing) ::
      if c in device.surfaces then device.surfaces[c] else Surface(KnownName(device, c, disableNames), device.scan[c].id)
  }

  /** Connectors of headsets and the like are offered for lease instead. */
  function OffersAfter(device: Device, policy: Policy, disableNames: bool): set<(ConnectorId, Crtc)> {
    device.nonDesktop +
    (set c | c in device.scan && ToConnect(device, c, policy, disableNames) && device.scan[c].nonDesktop :: (device.scan[c].id, c))
  }

  /** The device after one reconciliation pass. */
  function ReconciledDevice(device: Device, policy: Policy, disableNames: bool, failing: set<Crtc>): Device {
    device.(surfaces := SurfacesAfter(device, policy, disableNames, failing),
            nonDesktop := OffersAfter(device, policy, disableNames))
  }

  function CrtcsOn(pairs: set<(Node, Crtc)>, n: Node): (crtcs: set<Crtc>)
    ensures forall c :: c in crtcs <==> (n, c) in pairs
  {
    var crtcs := set p | p in pairs && p.0 == n :: p.1;
    assert forall c | (n, c) in pairs :: (n, c).1 in crtcs;
    crtcs
  }

  function Reconciled(devices: Devices, policy: Policy, disableNames: bool, failing: set<(Node, Crtc)>): Devices {
    map n | n in devices :: ReconciledDevice(devices[n], policy, disableNames, CrtcsOn(failing, n))
  }

  /** All lit CRTCs. */
  function Enabled(devices: Devices): set<(Node, Crtc)> {
    set n, c | n in devices && c in devices[n].surfaces :: (n, c)
  }

  // What holds between events.

  ghost predicate DeviceOk(device: Device, disableNames: bool) {
    && device.known.Keys == device.scan.Keys
    && (forall c | c in device.scan :: device.known[c].connector == device.scan[c].name.connector)
    && (forall c | c in device.surfaces :: c in device.scan && device.surfaces[c].connector == device.scan[c].id &&
          !device.scan[c].nonDesktop && device.surfaces[c].name == KnownName(device, c, disableNames))
    && (forall p | p in device.nonDesktop :: p.1 in device.scan && device.scan[p.1].id == p.0 && device.scan[p.1].nonDesktop)
  }

  ghost predicate NodeOk(devices: Devices, n: Node, disableNames: bool) {
    n in devices ==> DeviceOk(devices[n], disableNames)
  }

  ghost predicate DevicesOk(devices: Devices, disableNames: bool) {
    forall n :: NodeOk(devices, n, disableNames)
  }

  /** The connectors have different names, and neither monitor calls itself like the other's connector. */
  ghost predicate RealisticPair(devices: Devices, n1: Node, c1: Crtc, n2: Node, c2: Crtc) {
    n1 in devices && n2 in devices && c2 in devices[n2].scan ==>
      var connector := devices[n2].scan[c2].name.connector;
      && (c1 in devices[n1].scan && devices[n1].scan[c1].name.connector == connector ==> n1 == n2 && c1 == c2)
      && (c1 in devices[n1].scan ==> devices[n1].scan[c1].name.monitor != Some(connector))
      && (c1 in devices[n1].known ==> devices[n1].known[c1].monitor != Some(connector))
  }

  /** Connector names are unique in the whole system, and no monitor calls itself like a connector. */
  ghost predicate NamesRealistic(devices: Devices) {
    forall n1, c1, n2, c2 :: RealisticPair(devices, n1, c1, n2, c2)
  }

  ghost predicate Apart(devices: Devices, n1: Node, c1: Crtc, n2: Node, c2: Crtc) {
    n1 in devices && c1 in devices[n1].known && n2 in devices && c2 in devices[n2].known && !(n1 == n2 && c1 == c2) ==>
      devices[n1].known[c1].Formatted() != devices[n2].known[c2].Formatted()
  }

  /** No two connected outputs answer to the same name; the layout could not tell them apart. */
  ghost predicate NamesDistinct(devices: Devices) {
    forall n1, c1, n2, c2 :: Apart(devices, n1, c1, n2, c2)
  }

  /** A CRTC carries one lease offer at most, and none while it is lit. */
  ghost predicate OffersOk(device: Device) {
    && (forall p, q | p in device.nonDesktop && q in device.nonDesktop && p.1 == q.1 :: p == q)
    && (forall p | p in device.nonDesktop :: p.1 !in device.surfaces)
  }

  ghost predicate NodeOffersOk(devices: Devices, n: Node) {
    n in devices ==> OffersOk(devices[n])
  }

  ghost predicate AllOffersOk(devices: Devices) {
    forall n :: NodeOffersOk(devices, n)
  }

  function Disconnected(device: Device, c: Crtc): Device {
    if c in device.surfaces then device.(surfaces := device.surfaces - {c})
    else device.(nonDesktop := set p | p in device.nonDesktop && p.1 != c)
  }

  function Connected(device: Device, c: Crtc, disableNames: bool, fails: bool): Device
    requires c in device.scan
  {
    if device.scan[c].nonDesktop then device.(nonDesktop := device.nonDesktop + {(device.scan[c].id, c)})
    else if fails then device
    else device.(surfaces := device.surfaces[c := Surface(KnownName(device, c, disableNames), device.scan[c].id)])
  }

  // What reconciliation achieves.

  /** The configuration section at `i` is the first that is about an output of this name. */
  ghost predicate FirstFor(outputs: seq<OutputConfig>, i: nat, name: OutputName) {
    && i < |outputs| && (outputs[i].name == name.connector || name.monitor == Some(outputs[i].name))
    && forall j | 0 <= j < i :: outputs[j].name != name.connector && name.monitor != Some(outputs[j].name)
  }

  /** Only the first section about an output decides whether it is off. */
  lemma {:induction false} IsOffIff(outputs: seq<OutputConfig>, name: OutputName)
    ensures IsOff(outputs, name) <==> exists i: nat :: FirstFor(outputs, i, name) && outputs[i].off
  {
    if outputs != [] {
      IsOffIff(outputs[1..], name);
      if name.Matches(outputs[0].name) {
        assert FirstFor(outputs, 0, name);
      } else {
        forall i: nat ensures FirstFor(outputs[1..], i, name) <==> FirstFor(outputs, i + 1, name) {
          assert i < |outputs| - 1 ==> outputs[1..][i] == outputs[i + 1];
          assert forall j | 0 <= j < i && i < |outputs| - 1 :: outputs[1..][j] == outputs[j + 1];
        }
        if IsOff(outputs[1..], name) {
          var i: nat :| FirstFor(outputs[1..], i, name) && outputs[1..][i].off;
          assert FirstFor(outputs, i + 1, name) && outputs[i + 1].off;
        }
        if i: nat :| FirstFor(outputs, i, name) && outputs[i].off {
          assert FirstFor(outputs[1..], i - 1, name) && outputs[1..][i - 1].off;
        }
      }
    }
  }

  /** The connector is named like the built-in panel of a laptop. */
  ghost predicate NamedLikePanel(connector: string) {
    "eDP-" <= connector || "LVDS" <= connector || "DSI-" <= connector
  }

  /** With the lid closed and panels not to be kept, a connector that is not named like a panel is there. */
  ghost predicate PanelsGiveWay(devices: Devices, config: Config, lidClosed: bool) {
    && lidClosed && !config.keepPanelOnLidClose
    && exists n, c :: n in devices && c in devices[n].scan && !NamedLikePanel(devices[n].scan[c].name.connector)
  }

  lemma PanelsGiveWayIff(devices: Devices, config: Config, lidClosed: bool, connector: string)
    ensures IsLaptopPanel(connector) <==> NamedLikePanel(connector)
    ensures DisablePanels(devices, config, lidClosed) <==> PanelsGiveWay(devices, config, lidClosed)
  {
    assert forall s: string :: IsLaptopPanel(s) <==> NamedLikePanel(s) by {
      forall s: string ensures IsLaptopPanel(s) <==> NamedLikePanel(s) {
        if |s| >= 4 {
          assert "eDP-" <= s <==> s[..4] == "eDP-";
          assert "LVDS" <= s <==> s[..4] == "LVDS";
          assert "DSI-" <= s <==> s[..4] == "DSI-";
        }
      }
    }
  }

  /** The name an output on CRTC `c` of a device in order goes by. */
  function OutputNameOn(device: Device, c: Crtc, disableNames: bool): OutputName
    requires c in device.scan && c in device.known
  {
    if disableNames then OutputName(device.scan[c].name.connector, None) else device.known[c]
  }

  /**
   * A connected desktop connector ends up lit exactly when the first configuration section about it, if any, does
   * not turn it off, and it is no laptop panel that gives way to another connector under a closed lid, unless it was
   * dark and could not be lit. A surface that is lit anew carries the output's name.
   */
  lemma ReconciledIffWanted(devices: Devices, config: Config, lidClosed: bool, disableNames: bool,
                            failing: set<(Node, Crtc)>, n: Node, c: Crtc)
    requires DevicesOk(devices, disableNames)
    requires n in devices && c in devices[n].scan && devices[n].scan[c].connected && !devices[n].scan[c].nonDesktop
    ensures c in devices[n].known
    ensures
      var after := Reconciled(devices, PolicyFor(devices, config, lidClosed), disableNames, failing);
      var name := OutputNameOn(devices[n], c, disableNames);
      && n in after
      && (c in after[n].surfaces <==>
            && !(exists i: nat :: FirstFor(config.outputs, i, name) && config.outputs[i].off)
            && !(PanelsGiveWay(devices, config, lidClosed) && NamedLikePanel(devices[n].scan[c].name.connector))
            && (c in devices[n].surfaces || (n, c) !in failing))
      && (c in after[n].surfaces ==> after[n].surfaces[c] == Surface(name, devices[n].scan[c].id))
  {
    assert NodeOk(devices, n, disableNames);
    IsOffIff(config.outputs, OutputNameOn(devices[n], c, disableNames));
    PanelsGiveWayIff(devices, config, lidClosed, devices[n].scan[c].name.connector);
  }

  /** So a connector that no section is about, and that is no laptop panel, is lit if it can be. */
  lemma UnmentionedIsLit(devices: Devices, config: Config, lidClosed: bool, disableNames: bool,
                         failing: set<(Node, Crtc)>, n: Node, c: Crtc)
    requires DevicesOk(devices, disableNames)
    requires n in devices && c in devices[n].scan && devices[n].scan[c].connected && !devices[n].scan[c].nonDesktop
    requires c in devices[n].known && !NamedLikePanel(devices[n].scan[c].name.connector) && (n, c) !in failing
    requires var name := OutputNameOn(devices[n], c, disableNames);
      forall i | 0 <= i < |config.outputs| ::
        config.outputs[i].name != name.connector && name.monitor != Some(config.outputs[i].name)
    ensures
      var after := Reconciled(devices, PolicyFor(devices, config, lidClosed), disableNames, failing);
      n in after && c in after[n].surfaces
  {
    ReconciledIffWanted(devices, config, lidClosed, disableNames, failing, n, c);
  }

  /** A connected headset or the like is offered for lease exactly when it was, or is wanted now; it is never lit. */
  lemma OfferedIffWanted(devices: Devices, config: Config, lidClosed: bool, disableNames: bool,
                         failing: set<(Node, Crtc)>, n: Node, c: Crtc)
    requires DevicesOk(devices, disableNames)
    requires n in devices && c in devices[n].scan && devices[n].scan[c].connected && devices[n].scan[c].nonDesktop
    ensures c in devices[n].known
    ensures
      var after := Reconciled(devices, PolicyFor(devices, config, lidClosed), disableNames, failing);
      var name := OutputNameOn(devices[n], c, disableNames);
      var offer := (devices[n].scan[c].id, c);
      && n in after && c !in after[n].surfaces
      && (offer in after[n].nonDesktop <==>
            || offer in devices[n].nonDesktop
            || (&& !(exists i: nat :: FirstFor(config.outputs, i, name) && config.outputs[i].off)
                && !(PanelsGiveWay(devices, config, lidClosed) && NamedLikePanel(devices[n].scan[c].name.connector))))
  {
    assert NodeOk(devices, n, disableNames);
    IsOffIff(config.outputs, OutputNameOn(devices[n], c, disableNames));
    PanelsGiveWayIff(devices, config, lidClosed, devices[n].scan[c].name.connector);
  }

  /** What is not connected stays as it is, but for a lit output that is no longer wanted. */
  lemma UnconnectedStays(devices: Devices, policy: Policy, disableNames: bool, failing: set<(Node, Crtc)>, n: Node, c: Crtc)
    requires n in devices && !(c in devices[n].scan && devices[n].scan[c].connected)
    ensures
      var after := Reconciled(devices, policy, disableNames, failing);
      && n in after
      && (c in after[n].surfaces <==> c in devices[n].surfaces && policy(devices[n].surfaces[c].name))
      && (forall id :: (id, c) in after[n].nonDesktop <==> (id, c) in devices[n].nonDesktop)
  {
  }

  lemma DeviceKeepsOk(device: Device, policy: Policy, disableNames: bool, failing: set<Crtc>)
    requires DeviceOk(device, disableNames)
    ensures DeviceOk(ReconciledDevice(device, policy, disableNames, failing), disableNames)
  {
  }

  lemma ReconciledKeepsOk(devices: Devices, policy: Policy, disableNames: bool, failing: set<(Node, Crtc)>)
    requires DevicesOk(devices, disableNames)
    ensures DevicesOk(Reconciled(devices, policy, disableNames, failing), disableNames)
  {
    var after := Reconciled(devices, policy, disableNames, failing);
    forall n ensures NodeOk(after, n, disableNames) {
      assert NodeOk(devices, n, disableNames);
      if n in devices {
        DeviceKeepsOk(devices[n], policy, disableNames, CrtcsOn(failing, n));
      }
    }
  }

  lemma NothingMoreToDo(device: Device, policy: Policy, disableNames: bool, failing: set<Crtc>)
    requires DeviceOk(device, disableNames)
    ensures var after := ReconciledDevice(device, policy, disableNames, failing);
      && (forall c :: !ToDisconnect(after, c, policy))
      && (forall c | ToConnect(after, c, policy, disableNames) :: c in failing && !after.scan[c].nonDesktop)
  {
    var after := ReconciledDevice(device, policy, disableNames, failing);
    assert forall c | c in device.scan :: KnownName(after, c, disableNames) == KnownName(device, c, disableNames);
  }

  lemma DoneIsFixpoint(device: Device, policy: Policy, disableNames: bool, failing: set<Crtc>)
    requires forall c :: !ToDisconnect(device, c, policy)
    requires forall c | ToConnect(device, c, policy, disableNames) :: c in failing && !device.scan[c].nonDesktop
    ensures ReconciledDevice(device, policy, disableNames, failing) == device
  {
    assert SurfacesAfter(device, policy, disableNames, failing) == device.surfaces;
    assert OffersAfter(device, policy, disableNames) == device.nonDesktop;
  }

  lemma DeviceFixpoint(device: Device, policy: Policy, disableNames: bool, failing: set<Crtc>)
    requires DeviceOk(device, disableNames)
    ensures var after := ReconciledDevice(device, policy, disableNames, failing);
      ReconciledDevice(after, policy, disableNames, failing) == after
  {
    NothingMoreToDo(device, policy, disableNames, failing);
    DoneIsFixpoint(ReconciledDevice(device, policy, disableNames, failing), policy, disableNames, failing);
  }

  lemma NodeIsFixpoint(devices: Devices, policy: Policy, disableNames: bool, failing: set<(Node, Crtc)>, n: Node)
    requires n in devices && DeviceOk(devices[n], disableNames)
    ensures var after := Reconciled(devices, policy, disableNames, failing);
      n in after && Reconciled(after, policy, disableNames, failing)[n] == after[n]
  {
    DeviceFixpoint(devices[n], policy, disableNames, CrtcsOn(failing, n));
  }

  lemma PassIsFixpoint(devices: Devices, policy: Policy, disableNames: bool, failing: set<(Node, Crtc)>)
    requires DevicesOk(devices, disableNames)
    ensures var after := Reconciled(devices, policy, disableNames, failing);
      Reconciled(after, policy, disableNames, failing) == after
  {
    var after := Reconciled(devices, policy, disableNames, failing);
    var again := Reconciled(after, policy, disableNames, failing);
    assert again.Keys == after.Keys;
    forall n | n in after ensures again[n] == after[n] {
      assert NodeOk(devices, n, disableNames);
      NodeIsFixpoint(devices, policy, disableNames, failing, n);
    }
  }

  lemma PanelsDependOnScansOnly(devices: Devices, after: Devices, config: Config, lidClosed: bool)
    requires after.Keys == devices.Keys && forall n | n in devices :: after[n].scan == devices[n].scan
    ensures DisablePanels(after, config, lidClosed) == DisablePanels(devices, config, lidClosed)
  {
  }

  /** A second pass changes nothing, even if some connectors keep failing. */
  lemma ReconciledIsFixpoint(devices: Devices, config: Config, lidClosed: bool, disableNames: bool, failing: set<(Node, Crtc)>)
    requires DevicesOk(devices, disableNames)
    ensures var after := Reconciled(devices, PolicyFor(devices, config, lidClosed), disableNames, failing);
      Reconciled(after, PolicyFor(after, config, lidClosed), disableNames, failing) == after
  {
    var policy := PolicyFor(devices, config, lidClosed);
    PassIsFixpoint(devices, policy, disableNames, failing);
    PanelsDependOnScansOnly(devices, Reconciled(devices, policy, disableNames, failing), config, lidClosed);
  }

  // A pass done one connector at a time.

  function Darkened(device: Device, off: set<Crtc>): Device {
    device.(surfaces := device.surfaces - off)
  }

  function NewLights(device: Device, on: set<Crtc>, disableNames: bool, failing: set<Crtc>): map<Crtc, Surface> {
    map c | c in on && c in device.scan && !device.scan[c].nonDesktop && c !in failing ::
      Surface(KnownName(device, c, disableNames), device.scan[c].id)
  }

  function NewOffers(device: Device, on: set<Crtc>): set<(ConnectorId, Crtc)> {
    set c | c in on && c in device.scan && device.scan[c].nonDesktop :: (device.scan[c].id, c)
  }

  function Brightened(device: Device, on: set<Crtc>, disableNames: bool, failing: set<Crtc>): Device {
    device.(surfaces := device.surfaces + NewLights(device, on, disableNames, failing),
            nonDesktop := device.nonDesktop + NewOffers(device, on))
  }

  lemma DarkenOneMore(device: Device, off: set<Crtc>, c: Crtc)
    requires c in device.surfaces && c !in off
    ensures Disconnected(Darkened(device, off), c) == Darkened(device, off + {c})
  {
    assert device.surfaces - off - {c} == device.surfaces - (off + {c});
  }

  lemma LightOneMore(device: Device, on: set<Crtc>, c: Crtc, disableNames: bool, failing: set<Crtc>)
    requires c in device.scan
    ensures NewLights(device, on + {c}, disableNames, failing) ==
      if device.scan[c].nonDesktop || c in failing then NewLights(device, on, disableNames, failing)
      else NewLights(device, on, disableNames, failing)[c := Surface(KnownName(device, c, disableNames), device.scan[c].id)]
  {
  }

  lemma OfferOneMore(device: Device, on: set<Crtc>, c: Crtc)
    requires c in device.scan
    ensures NewOffers(device, on + {c}) ==
      if device.scan[c].nonDesktop then NewOffers(device, on) + {(device.scan[c].id, c)} else NewOffers(device, on)
  {
    var more := NewOffers(device, on + {c});
    forall p | p in more ensures p in NewOffers(device, on) || (device.scan[c].nonDesktop && p == (device.scan[c].id, c)) {
      assert p.1 in on || p.1 == c;
    }
    forall d | d in on && d in device.scan && device.scan[d].nonDesktop ensures (device.scan[d].id, d) in more {
      assert d in on + {c};
    }
  }

  lemma BrightenOneMore(device: Device, on: set<Crtc>, c: Crtc, disableNames: bool, failing: set<Crtc>)
    requires c in device.scan
    ensures Connected(Brightened(device, on, disableNames, failing), c, disableNames, c in failing) ==
      Brightened(device, on + {c}, disableNames, failing)
  {
    LightOneMore(device, on, c, disableNames, failing);
    OfferOneMore(device, on, c);
    var surfaces, lights := device.surfaces, NewLights(device, on, disableNames, failing);
    var surface := Surface(KnownName(device, c, disableNames), device.scan[c].id);
    MapUpdateAssociates(surfaces, lights, c, surface);
    var offer := (device.scan[c].id, c);
    assert (device.nonDesktop + NewOffers(device, on)) + {offer} == device.nonDesktop + (NewOffers(device, on) + {offer});
  }

  lemma MapUpdateAssociates<K, V>(m1: map<K, V>, m2: map<K, V>, k: K, v: V)
    ensures (m1 + m2)[k := v] == m1 + m2[k := v]
  {
  }

  /** The CRTCs of `device` to turn off and on, under `policy`. */
  ghost predicate Plan(device: Device, policy: Policy, disableNames: bool, off: set<Crtc>, on: set<Crtc>) {
    && (forall c :: c in off <==> ToDisconnect(device, c, policy))
    && (forall c :: c in on <==> ToConnect(device, c, policy, disableNames))
  }

  lemma PlannedSurfaces(device: Device, policy: Policy, disableNames: bool, failing: set<Crtc>, off: set<Crtc>, on: set<Crtc>)
    requires Plan(device, policy, disableNames, off, on)
    ensures Darkened(device, off).surfaces + NewLights(device, on, disableNames, failing) ==
      SurfacesAfter(device, policy, disableNames, failing)
  {
  }

  lemma PlannedOffers(device: Device, policy: Policy, disableNames: bool, off: set<Crtc>, on: set<Crtc>)
    requires Plan(device, policy, disableNames, off, on)
    ensures device.nonDesktop + NewOffers(device, on) == OffersAfter(device, policy, disableNames)
  {
    assert NewOffers(device, on) ==
      set c | c in device.scan && ToConnect(device, c, policy, disableNames) && device.scan[c].nonDesktop :: (device.scan[c].id, c);
  }

  lemma DarkeningKeepsPlans(device: Device, off: set<Crtc>, on: set<Crtc>, disableNames: bool, failing: set<Crtc>)
    ensures NewLights(Darkened(device, off), on, disableNames, failing) == NewLights(device, on, disableNames, failing)
    ensures NewOffers(Darkened(device, off), on) == NewOffers(device, on)
  {
  }

  /** Turning the unwanted off and then the wanted on is the same as the reconciled device. */
  lemma OffThenOnReconciles(device: Device, policy: Policy, disableNames: bool, failing: set<Crtc>, off: set<Crtc>, on: set<Crtc>)
    requires Plan(device, policy, disableNames, off, on)
    ensures Brightened(Darkened(device, off), on, disableNames, failing) == ReconciledDevice(device, policy, disableNames, failing)
  {
    DarkeningKeepsPlans(device, off, on, disableNames, failing);
    PlannedSurfaces(device, policy, disableNames, failing, off, on);
    PlannedOffers(device, policy, disableNames, off, on);
  }

  function DarkenedAll(devices: Devices, off: set<(Node, Crtc)>): Devices {
    map n | n in devices :: Darkened(devices[n], CrtcsOn(off, n))
  }

  function BrightenedAll(devices: Devices, on: set<(Node, Crtc)>, disableNames: bool, failing: set<(Node, Crtc)>): Devices {
    map n | n in devices :: Brightened(devices[n], CrtcsOn(on, n), disableNames, CrtcsOn(failing, n))
  }

  lemma CrtcsGrow(pairs: set<(Node, Crtc)>, n: Node, c: Crtc)
    ensures CrtcsOn(pairs + {(n, c)}, n) == CrtcsOn(pairs, n) + {c}
    ensures forall m: Node | m != n :: CrtcsOn(pairs + {(n, c)}, m) == CrtcsOn(pairs, m)
  {
  }

  lemma DarkenAllOneMore(devices: Devices, before: Devices, off: set<(Node, Crtc)>, n: Node, c: Crtc)
    requires n in devices && c in devices[n].surfaces && (n, c) !in off && before == DarkenedAll(devices, off)
    ensures before[n := Disconnected(before[n], c)] == DarkenedAll(devices, off + {(n, c)})
  {
    DarkenOneMore(devices[n], CrtcsOn(off, n), c);
    CrtcsGrow(off, n, c);
  }

  lemma StillConnectable(device: Device, on: set<Crtc>, c: Crtc, disableNames: bool, failing: set<Crtc>)
    requires c !in device.surfaces && c !in on && forall p | p in device.nonDesktop :: p.1 != c
    ensures c !in Brightened(device, on, disableNames, failing).surfaces
    ensures forall p | p in Brightened(device, on, disableNames, failing).nonDesktop :: p.1 != c
  {
  }

  lemma BrightenedElsewhere(devices: Devices, on: set<(Node, Crtc)>, n: Node, c: Crtc, disableNames: bool,
                            failing: set<(Node, Crtc)>)
    requires n in devices
    ensures BrightenedAll(devices, on + {(n, c)}, disableNames, failing) ==
      BrightenedAll(devices, on, disableNames, failing)[
        n := Brightened(devices[n], CrtcsOn(on, n) + {c}, disableNames, CrtcsOn(failing, n))]
  {
    CrtcsGrow(on, n, c);
  }

  lemma BrightenAllOneMore(devices: Devices, before: Devices, on: set<(Node, Crtc)>, n: Node, c: Crtc,
                           disableNames: bool, failing: set<(Node, Crtc)>)
    requires n in devices && c in devices[n].scan && c !in devices[n].surfaces && (n, c) !in on
    requires forall p | p in devices[n].nonDesktop :: p.1 != c
    requires before == BrightenedAll(devices, on, disableNames, failing)
    ensures c !in before[n].surfaces && (forall p | p in before[n].nonDesktop :: p.1 != c)
    ensures before[n := Connected(before[n], c, disableNames, (n, c) in failing)] ==
        BrightenedAll(devices, on + {(n, c)}, disableNames, failing)
  {
    StillConnectable(devices[n], CrtcsOn(on, n), c, disableNames, CrtcsOn(failing, n));
    BrightenOneMore(devices[n], CrtcsOn(on, n), c, disableNames, CrtcsOn(failing, n));
    BrightenedElsewhere(devices, on, n, c, disableNames, failing);
  }

  lemma NothingDarkened(devices: Devices)
    ensures DarkenedAll(devices, {}) == devices
  {
    forall n | n in devices ensures Darkened(devices[n], CrtcsOn({}, n)) == devices[n] {
      assert devices[n].surfaces - CrtcsOn({}, n) == devices[n].surfaces;
    }
  }

  lemma NoneBrightened(device: Device, disableNames: bool, failing: set<Crtc>)
    ensures Brightened(device, {}, disableNames, failing) == device
  {
    assert NewLights(device, {}, disableNames, failing) == map[];
    assert NewOffers(device, {}) == {};
    assert device.surfaces + map[] == device.surfaces;
  }

  lemma NothingBrightened(devices: Devices, disableNames: bool, failing: set<(Node, Crtc)>)
    ensures BrightenedAll(devices, {}, disableNames, failing) == devices
  {
    forall n | n in devices
      ensures Brightened(devices[n], CrtcsOn({}, n), disableNames, CrtcsOn(failing, n)) == devices[n]
    {
      assert CrtcsOn({}, n) == {};
      NoneBrightened(devices[n], disableNames, CrtcsOn(failing, n));
    }
  }

  lemma PlanFor(devices: Devices, policy: Policy, disableNames: bool, off: set<(Node, Crtc)>, on: set<(Node, Crtc)>, n: Node)
    requires n in devices
    requires forall c: Crtc :: (n, c) in off <==> ToDisconnect(devices[n], c, policy)
    requires forall c: Crtc :: (n, c) in on <==> ToConnect(devices[n], c, policy, disableNames)
    ensures Plan(devices[n], policy, disableNames, CrtcsOn(off, n), CrtcsOn(on, n))
  {
  }

  lemma OffThenOnReconcilesAll(devices: Devices, policy: Policy, disableNames: bool, failing: set<(Node, Crtc)>,
                               off: set<(Node, Crtc)>, on: set<(Node, Crtc)>)
    requires forall n: Node, c: Crtc | n in devices :: (n, c) in off <==> ToDisconnect(devices[n], c, policy)
    requires forall n: Node, c: Crtc | n in devices :: (n, c) in on <==> ToConnect(devices[n], c, policy, disableNames)
    ensures BrightenedAll(DarkenedAll(devices, off), on, disableNames, failing) == Reconciled(devices, policy, disableNames, failing)
  {
    forall n | n in devices
      ensures Brightened(Darkened(devices[n], CrtcsOn(off, n)), CrtcsOn(on, n), disableNames, CrtcsOn(failing, n)) ==
        ReconciledDevice(devices[n], policy, disableNames, CrtcsOn(failing, n))
    {
      PlanFor(devices, policy, disableNames, off, on, n);
      OffThenOnReconciles(devices[n], policy, disableNames, CrtcsOn(failing, n), CrtcsOn(off, n), CrtcsOn(on, n));
    }
  }

  // A rescan of one device.

  /** CRTCs that still carry the connector they carried before. */
  function Kept(before: map<Crtc, Connector>, after: map<Crtc, Connector>): set<Crtc> {
    set c | c in before && c in after && before[c].id == after[c].id
  }

  ghost predicate RescanRealistic(devices: Devices, n: Node, scan: map<Crtc, Connector>)
    requires n in devices
  {
    && (forall c | c in Kept(devices[n].scan, scan) ::
          scan[c].nonDesktop == devices[n].scan[c].nonDesktop && scan[c].name.connector == devices[n].scan[c].name.connector)
    && NamesRealistic(devices[n := devices[n].(scan := scan)])
  }

  /** Surfaces and lease offers on the CRTCs in `removed` are gone. */
  function Cleared(device: Device, removed: set<Crtc>): Device {
    device.(surfaces := device.surfaces - removed,
            nonDesktop := set p | p in device.nonDesktop && p.1 !in removed)
  }

  lemma ClearOneMore(device: Device, removed: set<Crtc>, c: Crtc)
    requires OffersOk(device) && c !in removed
    ensures Disconnected(Cleared(device, removed), c) == Cleared(device, removed + {c})
  {
    var some, more := Cleared(device, removed), Cleared(device, removed + {c});
    assert some.surfaces - {c} == more.surfaces;
    assert (set p | p in some.nonDesktop && p.1 != c) == more.nonDesktop;
    if c in some.surfaces {
      assert some.nonDesktop == more.nonDesktop;
    } else {
      assert some.surfaces == more.surfaces;
    }
  }

  lemma NothingCleared(device: Device)
    ensures Cleared(device, {}) == device
  {
    assert device.surfaces - {} == device.surfaces;
    assert (set p | p in device.nonDesktop && p.1 !in {}) == device.nonDesktop;
  }

  ghost predicate KnownNameOk(devices: Devices, n: Node, c: Crtc) {
    n in devices && c in devices[n].known ==>
      c in devices[n].scan && devices[n].known[c].connector == devices[n].scan[c].name.connector
  }

  /** Known names belong to scanned connectors. */
  ghost predicate KnownOk(devices: Devices) {
    forall n, c :: KnownNameOk(devices, n, c)
  }

  lemma KnownOkAt(devices: Devices, n: Node)
    requires n in devices && KnownOk(devices)
    ensures forall c | c in devices[n].known ::
      c in devices[n].scan && devices[n].known[c].connector == devices[n].scan[c].name.connector
  {
    forall c | c in devices[n].known
      ensures c in devices[n].scan && devices[n].known[c].connector == devices[n].scan[c].name.connector
    {
      assert KnownNameOk(devices, n, c);
    }
  }

  ghost predicate NameTaken(devices: Devices, formatted: string) {
    exists n, c :: n in devices && c in devices[n].known && devices[n].known[c].Matches(formatted)
  }

  /** The name a new connector is known by: without its monitor if an output already answers to that. */
  ghost function ChosenName(devices: Devices, name: OutputName): OutputName {
    if NameTaken(devices, name.Formatted()) then name.Unnamed() else name
  }

  /** A chosen name clashes with no known one. */
  lemma ChosenNameIsFree(devices: Devices, n: Node, c: Crtc, m: Node, d: Crtc)
    requires KnownOk(devices) && NamesRealistic(devices)
    requires n in devices && c in devices[n].scan && c !in devices[n].known
    requires m in devices && d in devices[m].known
    ensures ChosenName(devices, devices[n].scan[c].name).Formatted() != devices[m].known[d].Formatted()
  {
    assert KnownNameOk(devices, m, d) && RealisticPair(devices, m, d, n, c);
    assert devices[m].known[d].connector != devices[n].scan[c].name.connector;
    if !NameTaken(devices, devices[n].scan[c].name.Formatted()) {
      assert !devices[m].known[d].Matches(devices[n].scan[c].name.Formatted());
    }
  }

  /** `after` knows one more name than `devices`: that of CRTC `c` on `n`. */
  ghost predicate NamesOneMore(devices: Devices, after: Devices, n: Node, c: Crtc, name: OutputName) {
    && n in devices && c in devices[n].scan && c !in devices[n].known
    && after == devices[n := devices[n].(known := devices[n].known[c := name])]
  }

  lemma NamingKeepsKnownOk(devices: Devices, after: Devices, n: Node, c: Crtc, name: OutputName)
    requires KnownOk(devices) && NamesOneMore(devices, after, n, c, name)
    requires name.connector == devices[n].scan[c].name.connector
    ensures KnownOk(after)
  {
    forall m, d ensures KnownNameOk(after, m, d) {
      assert KnownNameOk(devices, m, d);
    }
  }

  lemma NamingKeepsRealistic(devices: Devices, after: Devices, n: Node, c: Crtc, name: OutputName)
    requires NamesRealistic(devices) && NamesOneMore(devices, after, n, c, name)
    requires name.monitor.None? || name.monitor == devices[n].scan[c].name.monitor
    ensures NamesRealistic(after)
  {
    forall n1, c1, n2, c2 ensures RealisticPair(after, n1, c1, n2, c2) {
      assert RealisticPair(devices, n1, c1, n2, c2);
    }
  }

  lemma NamingKeepsApart(devices: Devices, after: Devices, n: Node, c: Crtc, name: OutputName)
    requires NamesDistinct(devices) && NamesOneMore(devices, after, n, c, name)
    requires forall m, d | m in devices && d in devices[m].known :: name.Formatted() != devices[m].known[d].Formatted()
    ensures NamesDistinct(after)
  {
    forall n1, c1, n2, c2 ensures Apart(after, n1, c1, n2, c2) {
      assert Apart(devices, n1, c1, n2, c2);
    }
  }

  lemma NamingKeepsDistinct(devices: Devices, after: Devices, n: Node, c: Crtc, name: OutputName)
    requires KnownOk(devices) && NamesRealistic(devices) && NamesDistinct(devices)
    requires NamesOneMore(devices, after, n, c, name) && name == ChosenName(devices, devices[n].scan[c].name)
    ensures KnownOk(after) && NamesRealistic(after) && NamesDistinct(after)
  {
    NamingKeepsKnownOk(devices, after, n, c, name);
    NamingKeepsRealistic(devices, after, n, c, name);
    forall m, d | m in devices && d in devices[m].known ensures name.Formatted() != devices[m].known[d].Formatted() {
      ChosenNameIsFree(devices, n, c, m, d);
    }
    NamingKeepsApart(devices, after, n, c, name);
  }

  /** The connectors of `after` and their names are among those of `devices`. */
  ghost predicate FewerNames(devices: Devices, after: Devices) {
    && (forall n | n in after && n !in devices :: after[n].scan == map[] && after[n].known == map[])
    && (forall n | n in after && n in devices ::
          (forall c | c in after[n].scan :: c in devices[n].scan && after[n].scan[c] == devices[n].scan[c]) &&
          (forall c | c in after[n].known :: c in devices[n].known && after[n].known[c] == devices[n].known[c]))
  }

  lemma FewerNamesStayRealistic(devices: Devices, after: Devices)
    requires FewerNames(devices, after) && NamesRealistic(devices)
    ensures NamesRealistic(after)
  {
    forall n1, c1, n2, c2 ensures RealisticPair(after, n1, c1, n2, c2) {
      assert RealisticPair(devices, n1, c1, n2, c2);
    }
  }

  lemma FewerNamesStayApart(devices: Devices, after: Devices)
    requires forall n | n in after && n in devices, c | c in after[n].known ::
      c in devices[n].known && after[n].known[c] == devices[n].known[c]
    requires forall n | n in after && n !in devices :: after[n].known == map[]
    requires NamesDistinct(devices)
    ensures NamesDistinct(after)
  {
    forall n1, c1, n2, c2 ensures Apart(after, n1, c1, n2, c2) {
      assert Apart(devices, n1, c1, n2, c2);
    }
  }

  lemma FewerNamesKeepNames(devices: Devices, after: Devices)
    requires FewerNames(devices, after) && NamesRealistic(devices) && NamesDistinct(devices)
    ensures NamesRealistic(after) && NamesDistinct(after)
  {
    FewerNamesStayRealistic(devices, after);
    FewerNamesStayApart(devices, after);
  }

  /** Every connected desktop connector is on only if wanted, and on if wanted and able. */
  ghost predicate SettledDevice(device: Device, policy: Policy, disableNames: bool, failing: set<Crtc>) {
    forall c | c in device.scan && device.scan[c].connected && !device.scan[c].nonDesktop ::
      var wanted := policy(KnownName(device, c, disableNames));
      (c in device.surfaces ==> wanted) && (wanted && c !in failing ==> c in device.surfaces)
  }

  ghost predicate Settled(devices: Devices, policy: Policy, disableNames: bool, failing: set<(Node, Crtc)>) {
    forall n | n in devices :: SettledDevice(devices[n], policy, disableNames, CrtcsOn(failing, n))
  }

  lemma DeviceIsSettled(device: Device, policy: Policy, disableNames: bool, failing: set<Crtc>)
    requires DeviceOk(device, disableNames)
    ensures SettledDevice(ReconciledDevice(device, policy, disableNames, failing), policy, disableNames, failing)
  {
  }

  lemma ReconciledIsSettled(devices: Devices, policy: Policy, disableNames: bool, failing: set<(Node, Crtc)>)
    requires DevicesOk(devices, disableNames)
    ensures Settled(Reconciled(devices, policy, disableNames, failing), policy, disableNames, failing)
  {
    forall n | n in devices
      ensures SettledDevice(ReconciledDevice(devices[n], policy, disableNames, CrtcsOn(failing, n)),
                            policy, disableNames, CrtcsOn(failing, n))
    {
      assert NodeOk(devices, n, disableNames);
      DeviceIsSettled(devices[n], policy, disableNames, CrtcsOn(failing, n));
    }
  }

  /** A rescanned device is in order once stale connectors are cleared and every scanned one is named. */
  lemma RescannedDeviceOk(before: Device, after: Device, scan: map<Crtc, Connector>, disableNames: bool)
    requires DeviceOk(before, disableNames)
    requires forall c | c in Kept(before.scan, scan) ::
      scan[c].nonDesktop == before.scan[c].nonDesktop && scan[c].name.connector == before.scan[c].name.connector
    requires after == Cleared(before, before.scan.Keys - Kept(before.scan, scan)).(scan := scan, known := after.known)
    requires after.known.Keys == scan.Keys
    requires forall c | c in scan :: after.known[c].connector == scan[c].name.connector
    requires forall c | c in Kept(before.scan, scan) :: after.known[c] == before.known[c]
    ensures DeviceOk(after, disableNames)
  {
  }

  lemma DevicesOkMeansKnownOk(devices: Devices, disableNames: bool)
    requires DevicesOk(devices, disableNames)
    ensures KnownOk(devices)
  {
    forall n, c ensures KnownNameOk(devices, n, c) {
      assert NodeOk(devices, n, disableNames);
    }
  }

  /** The CRTCs with connectors that are new in a rescan, each once. */
  ghost predicate ListsNew(order: seq<Crtc>, before: map<Crtc, Connector>, after: map<Crtc, Connector>) {
    && (forall c :: c in order <==> c in after && c !in Kept(before, after))
    && (forall i, j | 0 <= i < j < |order| :: order[i] != order[j])
  }

  /** CRTCs whose connector a rescan no longer finds. */
  function Stale(device: Device, scan: map<Crtc, Connector>): set<Crtc> {
    device.scan.Keys - Kept(device.scan, scan)
  }

  /** Device `n` with a new scan, its stale connectors withdrawn and forgotten. */
  function Rescanned(devices: Devices, n: Node, scan: map<Crtc, Connector>): Devices
    requires n in devices
  {
    var stale := Stale(devices[n], scan);
    devices[n := Cleared(devices[n], stale).(scan := scan, known := devices[n].known - stale)]
  }

  lemma RescanFits(devices: Devices, n: Node, scan: map<Crtc, Connector>, disableNames: bool)
    requires DevicesOk(devices, disableNames) && n in devices && RescanRealistic(devices, n, scan)
    ensures var after := Rescanned(devices, n, scan);
      KnownOk(after) && after[n].known.Keys == Kept(devices[n].scan, scan)
  {
    DevicesOkMeansKnownOk(devices, disableNames);
    assert NodeOk(devices, n, disableNames);
    var after := Rescanned(devices, n, scan);
    forall m, c ensures KnownNameOk(after, m, c) {
      assert KnownNameOk(devices, m, c);
    }
  }

  lemma RescanFitsNames(devices: Devices, n: Node, scan: map<Crtc, Connector>)
    requires NamesDistinct(devices) && n in devices && RescanRealistic(devices, n, scan)
    ensures NamesRealistic(Rescanned(devices, n, scan)) && NamesDistinct(Rescanned(devices, n, scan))
  {
    FewerNamesStayApart(devices, Rescanned(devices, n, scan));
    FewerNamesStayRealistic(devices[n := devices[n].(scan := scan)], Rescanned(devices, n, scan));
  }

  // Naming new connectors, in the order of the scan.

  /** CRTCs with connectors that have no name yet, each once. */
  ghost predicate Nameless(device: Device, order: seq<Crtc>) {
    && (forall i | 0 <= i < |order| :: order[i] in device.scan && order[i] !in device.known)
    && (forall i, j | 0 <= i < j < |order| :: order[i] != order[j])
  }

  ghost function Named(devices: Devices, n: Node, c: Crtc): Devices
    requires n in devices && c in devices[n].scan
  {
    devices[n := devices[n].(known := devices[n].known[c := ChosenName(devices, devices[n].scan[c].name)])]
  }

  /** Each connector is checked against all known before, those named in the same scan included. */
  ghost function NamedInOrder(devices: Devices, n: Node, order: seq<Crtc>): (after: Devices)
    requires n in devices && Nameless(devices[n], order)
    ensures n in after && after[n] == devices[n].(known := after[n].known) && after == devices[n := after[n]]
    ensures forall c :: c in after[n].known <==> c in devices[n].known || c in order
    ensures forall c | c in devices[n].known :: after[n].known[c] == devices[n].known[c]
  {
    if order == [] then devices
    else Named(NamedInOrder(devices, n, order[..|order| - 1]), n, order[|order| - 1])
  }

  lemma {:induction false} NamingAllKeepsDistinct(devices: Devices, n: Node, order: seq<Crtc>)
    requires KnownOk(devices) && NamesRealistic(devices) && NamesDistinct(devices)
    requires n in devices && Nameless(devices[n], order)
    ensures var after := NamedInOrder(devices, n, order); KnownOk(after) && NamesRealistic(after) && NamesDistinct(after)
  {
    if order != [] {
      var before, c := NamedInOrder(devices, n, order[..|order| - 1]), order[|order| - 1];
      NamingAllKeepsDistinct(devices, n, order[..|order| - 1]);
      NamingKeepsDistinct(before, Named(before, n, c), n, c, ChosenName(before, devices[n].scan[c].name));
    }
  }

  /** An output other than the one on CRTC `c` of `n` is known that answers to the name. */
  ghost predicate AnsweredByOther(devices: Devices, n: Node, c: Crtc, formatted: string) {
    exists m, d :: m in devices && d in devices[m].known && !(m == n && d == c) && devices[m].known[d].Matches(formatted)
  }

  lemma NewestAnsweredByOther(devices: Devices, n: Node, c: Crtc, formatted: string)
    requires n in devices && c in devices[n].scan && c !in devices[n].known
    ensures AnsweredByOther(Named(devices, n, c), n, c, formatted) <==> NameTaken(devices, formatted)
  {
    var after := Named(devices, n, c);
    if NameTaken(devices, formatted) {
      var m, d :| m in devices && d in devices[m].known && devices[m].known[d].Matches(formatted);
      assert m in after && d in after[m].known && after[m].known[d].Matches(formatted);
    }
  }

  lemma StaysAnswered(devices: Devices, n: Node, c: Crtc, e: Crtc, formatted: string)
    requires n in devices && c in devices[n].scan && c !in devices[n].known && AnsweredByOther(devices, n, e, formatted)
    ensures AnsweredByOther(Named(devices, n, c), n, e, formatted)
  {
    var after := Named(devices, n, c);
    var m, d :| m in devices && d in devices[m].known && !(m == n && d == e) && devices[m].known[d].Matches(formatted);
    assert m in after && d in after[m].known && after[m].known[d].Matches(formatted);
  }

  lemma EarlierAnsweredByOther(devices: Devices, n: Node, c: Crtc, e: Crtc)
    requires n in devices && c in devices[n].scan && c !in devices[n].known && e in devices[n].known && e in devices[n].scan
    requires NamesRealistic(devices) && NamesDistinct(Named(devices, n, c))
    requires devices[n].known[e] == devices[n].scan[e].name && devices[n].scan[e].name.monitor.Some?
    ensures var formatted := devices[n].scan[e].name.Formatted();
      AnsweredByOther(Named(devices, n, c), n, e, formatted) <==> AnsweredByOther(devices, n, e, formatted)
  {
    var after, formatted := Named(devices, n, c), devices[n].scan[e].name.Formatted();
    assert Apart(after, n, c, n, e) && RealisticPair(devices, n, e, n, c);
    if AnsweredByOther(after, n, e, formatted) {
      var m, d :| m in after && d in after[m].known && !(m == n && d == e) && after[m].known[d].Matches(formatted);
      assert m in devices && d in devices[m].known && devices[m].known[d].Matches(formatted);
    }
    if AnsweredByOther(devices, n, e, formatted) {
      StaysAnswered(devices, n, c, e, formatted);
    }
  }

  /** In the end a new connector goes without its monitor's name exactly when another known output answers to that. */
  lemma {:induction false} UnnamedIffAnswered(devices: Devices, n: Node, order: seq<Crtc>, i: nat)
    requires KnownOk(devices) && NamesRealistic(devices) && NamesDistinct(devices)
    requires n in devices && Nameless(devices[n], order) && i < |order|
    ensures var after, name := NamedInOrder(devices, n, order), devices[n].scan[order[i]].name;
      after[n].known[order[i]] ==
        if AnsweredByOther(after, n, order[i], name.Formatted()) then name.Unnamed() else name
  {
    var before, c := NamedInOrder(devices, n, order[..|order| - 1]), order[|order| - 1];
    NamingAllKeepsDistinct(devices, n, order[..|order| - 1]);
    NamingAllKeepsDistinct(devices, n, order);
    var name := devices[n].scan[order[i]].name;
    if i == |order| - 1 {
      NewestAnsweredByOther(before, n, c, name.Formatted());
    } else {
      UnnamedIffAnswered(devices, n, order[..|order| - 1], i);
      if name.monitor.Some? {
        if before[n].known[order[i]] == name {
          EarlierAnsweredByOther(before, n, c, order[i]);
        } else {
          StaysAnswered(before, n, c, order[i], name.Formatted());
        }
      }
    }
  }

  lemma NamedDeviceOk(devices: Devices, n: Node, scan: map<Crtc, Connector>, order: seq<Crtc>, disableNames: bool)
    requires DevicesOk(devices, disableNames) && n in devices && RescanRealistic(devices, n, scan)
    requires ListsNew(order, devices[n].scan, scan) && Nameless(Rescanned(devices, n, scan)[n], order)
    requires KnownOk(NamedInOrder(Rescanned(devices, n, scan), n, order))
    ensures DeviceOk(NamedInOrder(Rescanned(devices, n, scan), n, order)[n], disableNames)
  {
    var after := NamedInOrder(Rescanned(devices, n, scan), n, order);
    assert NodeOk(devices, n, disableNames);
    KnownOkAt(after, n);
    RescannedDeviceOk(devices[n], after[n], scan, disableNames);
  }

  lemma RescanNamedFits(devices: Devices, n: Node, scan: map<Crtc, Connector>, order: seq<Crtc>, disableNames: bool)
    requires DevicesOk(devices, disableNames) && NamesDistinct(devices)
    requires n in devices && RescanRealistic(devices, n, scan)
    requires ListsNew(order, devices[n].scan, scan) && Nameless(Rescanned(devices, n, scan)[n], order)
    ensures var after := NamedInOrder(Rescanned(devices, n, scan), n, order);
      DevicesOk(after, disableNames) && NamesRealistic(after) && NamesDistinct(after)
  {
    RescanFits(devices, n, scan, disableNames);
    RescanFitsNames(devices, n, scan);
    NamingAllKeepsDistinct(Rescanned(devices, n, scan), n, order);
    NamedDeviceOk(devices, n, scan, order, disableNames);
    ReplacedDeviceFits(devices, NamedInOrder(Rescanned(devices, n, scan), n, order), n, disableNames);
  }

  /** Of one device only the scan is new; connectors that stay keep their names. */
  ghost predicate OnlyRescanned(devices: Devices, after: Devices, n: Node, scan: map<Crtc, Connector>) {
    && after.Keys == devices.Keys && n in after && after[n].scan == scan
    && (forall m | m in after && m != n :: after[m].scan == devices[m].scan && after[m].known == devices[m].known)
    && (forall m | m in after :: after[m].renderNode == devices[m].renderNode && after[m].hasLease == devices[m].hasLease)
    && (forall c | c in devices[n].scan && c in scan && devices[n].scan[c].id == scan[c].id && c in devices[n].known ::
          c in after[n].known && after[n].known[c] == devices[n].known[c])
  }

  /** While its connector stays, a light goes out only if unwanted, and comes on only in a pass; an offer stays. */
  ghost predicate UseStays(device: Device, after: Device, policy: Policy, active: bool, c: Crtc) {
    c in device.scan && c in after.scan && after.scan[c].id == device.scan[c].id ==>
      && (c in device.surfaces && (active ==> policy(device.surfaces[c].name)) ==>
            c in after.surfaces && after.surfaces[c] == device.surfaces[c])
      && (!active && c in after.surfaces ==> c in device.surfaces)
      && ((device.scan[c].id, c) in device.nonDesktop ==> (device.scan[c].id, c) in after.nonDesktop)
  }

  /** Connectors that stay keep their use, whatever comes and goes beside them. */
  ghost predicate AllUsesStay(devices: Devices, after: Devices, policy: Policy, active: bool) {
    forall n, c | n in devices && n in after :: UseStays(devices[n], after[n], policy, active, c)
  }

  lemma RescanKeepsUses(devices: Devices, n: Node, scan: map<Crtc, Connector>, order: seq<Crtc>, active: bool,
                        config: Config, lidClosed: bool, disableNames: bool, failing: set<(Node, Crtc)>)
    requires n in devices && Nameless(Rescanned(devices, n, scan)[n], order)
    ensures var named := NamedInOrder(Rescanned(devices, n, scan), n, order);
      var after := Finished(named, active, config, lidClosed, disableNames, failing);
      AllUsesStay(devices, after, PolicyFor(after, config, lidClosed), active)
  {
    var named := NamedInOrder(Rescanned(devices, n, scan), n, order);
    var after := Finished(named, active, config, lidClosed, disableNames, failing);
    PanelsDependOnScansOnly(named, after, config, lidClosed);
    forall m, c | m in devices ensures UseStays(devices[m], after[m], PolicyFor(after, config, lidClosed), active, c) {
      UseStaysOn(devices[m], named[m], PolicyFor(named, config, lidClosed), active, disableNames, CrtcsOn(failing, m), c);
    }
  }

  lemma UseStaysOn(device: Device, named: Device, policy: Policy, active: bool, disableNames: bool, failing: set<Crtc>, c: Crtc)
    requires named.surfaces.Keys <= device.surfaces.Keys
    requires c in device.scan && c in named.scan && named.scan[c].id == device.scan[c].id ==>
      && (c in device.surfaces ==> c in named.surfaces && named.surfaces[c] == device.surfaces[c])
      && ((device.scan[c].id, c) in device.nonDesktop ==> (device.scan[c].id, c) in named.nonDesktop)
    ensures UseStays(device, if active then ReconciledDevice(named, policy, disableNames, failing) else named, policy, active, c)
  {
  }

  /** A pass changes neither names nor scans. */
  lemma PassKeepsNames(devices: Devices, policy: Policy, disableNames: bool, failing: set<(Node, Crtc)>)
    requires NamesRealistic(devices) && NamesDistinct(devices)
    ensures var after := Reconciled(devices, policy, disableNames, failing);
      NamesRealistic(after) && NamesDistinct(after)
  {
    FewerNamesKeepNames(devices, Reconciled(devices, policy, disableNames, failing));
  }

  lemma PassSettles(devices: Devices, config: Config, lidClosed: bool, disableNames: bool, failing: set<(Node, Crtc)>)
    requires DevicesOk(devices, disableNames)
    ensures var after := Reconciled(devices, PolicyFor(devices, config, lidClosed), disableNames, failing);
      Settled(after, PolicyFor(after, config, lidClosed), disableNames, failing)
  {
    ReconciledIsSettled(devices, PolicyFor(devices, config, lidClosed), disableNames, failing);
    PanelsDependOnScansOnly(devices, Reconciled(devices, PolicyFor(devices, config, lidClosed), disableNames, failing),
                            config, lidClosed);
  }

  lemma NamingOnlyRescans(devices: Devices, n: Node, scan: map<Crtc, Connector>, order: seq<Crtc>)
    requires n in devices && Nameless(Rescanned(devices, n, scan)[n], order)
    ensures OnlyRescanned(devices, NamedInOrder(Rescanned(devices, n, scan), n, order), n, scan)
  {
  }

  lemma PassOnlyRescans(devices: Devices, named: Devices, n: Node, scan: map<Crtc, Connector>, policy: Policy,
                        disableNames: bool, failing: set<(Node, Crtc)>)
    requires OnlyRescanned(devices, named, n, scan)
    ensures OnlyRescanned(devices, Reconciled(named, policy, disableNames, failing), n, scan)
  {
  }

  /** Everything is reconciled if the session is active. */
  function Finished(devices: Devices, active: bool, config: Config, lidClosed: bool, disableNames: bool,
                    failing: set<(Node, Crtc)>): Devices {
    if active then Reconciled(devices, PolicyFor(devices, config, lidClosed), disableNames, failing) else devices
  }

  lemma FinishedKeepsNames(devices: Devices, active: bool, config: Config, lidClosed: bool, disableNames: bool,
                           failing: set<(Node, Crtc)>)
    requires NamesRealistic(devices) && NamesDistinct(devices)
    ensures var after := Finished(devices, active, config, lidClosed, disableNames, failing);
      NamesRealistic(after) && NamesDistinct(after)
  {
    PassKeepsNames(devices, PolicyFor(devices, config, lidClosed), disableNames, failing);
  }

  /** A device rescanned, its new connectors named, and everything reconciled. */
  lemma RescanFinished(devices: Devices, n: Node, scan: map<Crtc, Connector>, order: seq<Crtc>, active: bool,
                       config: Config, lidClosed: bool, disableNames: bool, failing: set<(Node, Crtc)>)
    requires DevicesOk(devices, disableNames) && NamesDistinct(devices)
    requires n in devices && RescanRealistic(devices, n, scan)
    requires ListsNew(order, devices[n].scan, scan) && Nameless(Rescanned(devices, n, scan)[n], order)
    ensures var named := NamedInOrder(Rescanned(devices, n, scan), n, order);
      var after := Finished(named, active, config, lidClosed, disableNames, failing);
      && NamesRealistic(after) && NamesDistinct(after)
      && OnlyRescanned(devices, after, n, scan)
      && AllUsesStay(devices, after, PolicyFor(after, config, lidClosed), active)
      && (active ==> Settled(after, PolicyFor(after, config, lidClosed), disableNames, failing))
  {
    var named := NamedInOrder(Rescanned(devices, n, scan), n, order);
    RescanNamedFits(devices, n, scan, order, disableNames);
    FinishedKeepsNames(named, active, config, lidClosed, disableNames, failing);
    NamingOnlyRescans(devices, n, scan, order);
    RescanKeepsUses(devices, n, scan, order, active, config, lidClosed, disableNames, failing);
    if active {
      PassOnlyRescans(devices, named, n, scan, PolicyFor(named, config, lidClosed), disableNames, failing);
      PassSettles(named, config, lidClosed, disableNames, failing);
    }
  }

  // Devices coming and going.

  /**
   * What the system answers when a device is looked at: whether it is ignored, has a path and opens, its render node
   * if it has one, whether a primary renderer and a lease state can be created for it, and, unless scanning fails,
   * its scan, with the new connectors in order.
   */
  datatype Probe = Probe(ignored: bool, hasPath: bool, opens: bool, renderNode: Option<Node>, rendererOk: bool,
                         leaseOk: bool, scan: Option<map<Crtc, Connector>>, order: seq<Crtc>)

  ghost predicate ProbeRealistic(devices: Devices, n: Node, probe: Probe) {
    var before := if n in devices then devices else devices[n := EmptyDevice(probe.renderNode, probe.leaseOk)];
    probe.scan.Some? ==>
      RescanRealistic(before, n, probe.scan.value) && ListsNew(probe.order, before[n].scan, probe.scan.value)
  }

  function EmptyDevice(renderNode: Option<Node>, hasLease: bool): Device {
    Device(renderNode, map[], map[], map[], hasLease, {})
  }

  lemma EmptyDeviceFits(devices: Devices, after: Devices, n: Node, renderNode: Option<Node>, hasLease: bool, disableNames: bool)
    requires DevicesOk(devices, disableNames) && AllOffersOk(devices)
    requires n !in devices && after == devices[n := EmptyDevice(renderNode, hasLease)]
    ensures DevicesOk(after, disableNames) && AllOffersOk(after)
    ensures Enabled(after) == Enabled(devices)
  {
    forall m ensures NodeOk(after, m, disableNames) && NodeOffersOk(after, m) {
      assert NodeOk(devices, m, disableNames) && NodeOffersOk(devices, m);
    }
  }

  lemma RemovedDeviceFits(devices: Devices, after: Devices, n: Node, disableNames: bool)
    requires DevicesOk(devices, disableNames) && AllOffersOk(devices)
    requires after == devices - {n}
    ensures DevicesOk(after, disableNames) && AllOffersOk(after)
    ensures Enabled(after) == set p | p in Enabled(devices) && p.0 != n
  {
    forall m ensures NodeOk(after, m, disableNames) && NodeOffersOk(after, m) {
      assert NodeOk(devices, m, disableNames) && NodeOffersOk(devices, m);
    }
  }

  /** Replacing one device by another that is in order. */
  lemma ReplacedDeviceFits(devices: Devices, after: Devices, n: Node, disableNames: bool)
    requires DevicesOk(devices, disableNames)
    requires n in after && after == devices[n := after[n]] && DeviceOk(after[n], disableNames)
    ensures DevicesOk(after, disableNames)
  {
    forall m ensures NodeOk(after, m, disableNames) {
      assert NodeOk(devices, m, disableNames);
    }
  }

  lemma ReplacedOffersFit(devices: Devices, after: Devices, n: Node)
    requires AllOffersOk(devices)
    requires n in after && after == devices[n := after[n]] && OffersOk(after[n])
    ensures AllOffersOk(after)
  {
    forall m ensures NodeOffersOk(after, m) {
      assert NodeOffersOk(devices, m);
    }
  }

  /** Device `n` with a lease state of its own. */
  function Leased(devices: Devices, n: Node): Devices
    requires n in devices
  {
    devices[n := devices[n].(hasLease := true)]
  }

  lemma LeasedFits(devices: Devices, n: Node, disableNames: bool)
    requires DevicesOk(devices, disableNames) && AllOffersOk(devices) && n in devices
    ensures DevicesOk(Leased(devices, n), disableNames) && AllOffersOk(Leased(devices, n))
  {
    assert NodeOk(devices, n, disableNames) && NodeOffersOk(devices, n);
    ReplacedDeviceFits(devices, Leased(devices, n), n, disableNames);
    ReplacedOffersFit(devices, Leased(devices, n), n);
  }

  lemma LeasedKeepsNames(devices: Devices, n: Node)
    requires NamesRealistic(devices) && NamesDistinct(devices) && n in devices
    ensures NamesRealistic(Leased(devices, n)) && NamesDistinct(Leased(devices, n))
  {
    FewerNamesKeepNames(devices, Leased(devices, n));
  }

  lemma NothingLeft<T>(all: set<T>, done: set<T>)
    requires done <= all && all - done == {}
    ensures done == all
  {
    forall x | x in all ensures x in done {
      assert x !in all - done;
    }
  }

  /** What the pass wants to connect is dark and not offered for lease, also once the unwanted went dark. */
  lemma ConnectableAfterDarkening(devices: Devices, off: set<(Node, Crtc)>, policy: Policy, disableNames: bool, n: Node, c: Crtc)
    requires DevicesOk(devices, disableNames)
    requires n in devices && ToConnect(devices[n], c, policy, disableNames)
    ensures var dark := DarkenedAll(devices, off)[n];
      c in dark.scan && c !in dark.surfaces && forall p | p in dark.nonDesktop :: p.1 != c
  {
    assert NodeOk(devices, n, disableNames);
  }

  /** Some device renders on `node`. */
  ghost predicate RendererUsed(devices: Devices, node: Node) {
    exists n :: n in devices && devices[n].renderNode == Some(node)
  }

  lemma OneMoreRenders(devices: Devices, n: Node, device: Device, node: Node)
    requires n !in devices
    ensures RendererUsed(devices[n := device], node) <==> (RendererUsed(devices, node) || device.renderNode == Some(node))
  {
    var after := devices[n := device];
    if RendererUsed(devices, node) {
      var m :| m in devices && devices[m].renderNode == Some(node);
      assert m in after && after[m].renderNode == Some(node);
    }
    assert n in after && after[n] == device;
  }

  lemma SameRenderersUsed(devices: Devices, after: Devices, node: Node)
    requires after.Keys == devices.Keys && forall n | n in devices :: after[n].renderNode == devices[n].renderNode
    ensures RendererUsed(after, node) == RendererUsed(devices, node)
  {
    if RendererUsed(devices, node) {
      var n :| n in devices && devices[n].renderNode == Some(node);
      assert n in after && after[n].renderNode == Some(node);
    }
  }
}
