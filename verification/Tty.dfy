/**
 * The TTY backend object: DRM devices come and go, connectors are plugged and unplugged, and every change ends
 * in a reconciliation pass. `Valid` is what all of it keeps: lit CRTCs and tracked outputs in bijection, live
 * and parked lease nodes apart, a dmabuf global exactly while a device uses the primary render node, and no
 * two connected outputs under the same name.
 */
module TtyBackend {
  import opened Prelude
  import opened HotplugModel

  class Tty {
    const primaryNode: Node
    const primaryRenderNode: Node
    const disableNames: bool
    var config: Config
    var lidClosed: bool
    var sessionActive: bool
    var updateConfigOnResume: bool
    var devices: Devices
    var parkedLeases: set<Node>
    var dmabufGlobal: bool
    /** The compositor's outputs, by the node and CRTC they were made for. */
    var outputs: set<(Node, Crtc)>

    /** The part of `Valid` that holds even in the middle of a hot-plug event. */
    ghost predicate Tracked()
      reads this
    {
      outputs == Enabled(devices) && AllOffersOk(devices)
    }

    ghost predicate RendererTracked()
      reads this
    {
      dmabufGlobal <==> RendererUsed(devices, primaryRenderNode)
    }

    ghost predicate Valid()
      reads this
    {
      && Tracked()
      && DevicesOk(devices, disableNames)
      && devices.Keys !! parkedLeases
      && RendererTracked()
      && NamesRealistic(devices) && NamesDistinct(devices)
    }

    constructor (primaryNode: Node, primaryRenderNode: Node, disableNames: bool, config: Config)
      ensures Valid() && devices == map[] && this.config == config
    {
      this.primaryNode := primaryNode;
      this.primaryRenderNode := primaryRenderNode;
      this.disableNames := disableNames;
      this.config := config;
      lidClosed := false;
      sessionActive := true;
      updateConfigOnResume := false;
      devices := map[];
      parkedLeases := {};
      dmabufGlobal := false;
      outputs := {};
    }

    method ConnectorDisconnected(n: Node, c: Crtc)
      requires Tracked()
      modifies this`devices, this`outputs
      ensures Tracked()
      ensures devices == if n in old(devices) then old(devices)[n := Disconnected(old(devices)[n], c)] else old(devices)
    {
      if n !in devices {
        return;
      }
      var device := devices[n];
      assert NodeOffersOk(devices, n);
      if c !in device.surfaces {
        var offers := set p | p in device.nonDesktop && p.1 == c;
        if offers != {} {
          var offer :| offer in offers;
          assert device.nonDesktop - {offer} == set p | p in device.nonDesktop && p.1 != c;
          devices := devices[n := device.(nonDesktop := device.nonDesktop - {offer})];
        } else {
          forall p | p in device.nonDesktop ensures p.1 != c {
            assert p !in offers;
          }
          assert device.nonDesktop == set p | p in device.nonDesktop && p.1 != c;
          assert devices == devices[n := device];
        }
        assert devices[n] == Disconnected(device, c) && OffersOk(devices[n]);
        EnabledUnchanged(old(devices), devices, n);
        ReplacedOffersFit(old(devices), devices, n);
        return;
      }
      devices := devices[n := device.(surfaces := device.surfaces - {c})];
      EnabledLoses(old(devices), devices, n, c);
      ReplacedOffersFit(old(devices), devices, n);
      if (n, c) in outputs {
        outputs := outputs - {(n, c)};
      } else {
        assert false;
      }
    }

    /** Lights a connector, or offers it for lease; `fails` when the kernel or the renderer refuses. */
    method ConnectorConnected(n: Node, c: Crtc, fails: bool) returns (ok: bool)
      requires Tracked()
      requires n in devices && c in devices[n].scan && c !in devices[n].surfaces
      requires forall p | p in devices[n].nonDesktop :: p.1 != c
      modifies this`devices, this`outputs
      ensures Tracked()
      ensures devices == old(devices)[n := Connected(old(devices)[n], c, disableNames, fails)]
      ensures ok <==> devices[n].scan[c].nonDesktop || !fails
    {
      var device := devices[n];
      var connector := device.scan[c];
      assert NodeOffersOk(devices, n);
      if connector.nonDesktop {
        devices := devices[n := device.(nonDesktop := device.nonDesktop + {(connector.id, c)})];
        EnabledUnchanged(old(devices), devices, n);
        ReplacedOffersFit(old(devices), devices, n);
        return true;
      }
      if fails {
        assert devices == old(devices)[n := device];
        return false;
      }
      var surface := Surface(KnownName(device, c, disableNames), connector.id);
      devices := devices[n := device.(surfaces := device.surfaces[c := surface])];
      outputs := outputs + {(n, c)};
      EnabledGains(old(devices), devices, n, c);
      ReplacedOffersFit(old(devices), devices, n);
      return true;
    }

    method ShouldDisableLaptopPanels() returns (disable: bool)
      ensures disable == DisablePanels(devices, config, lidClosed)
    {
      if !lidClosed {
        return false;
      }
      if !config.keepPanelOnLidClose {
        var nodes := devices.Keys;
        while nodes != {}
          invariant nodes <= devices.Keys
          invariant forall n: Node, c: Crtc | n in devices.Keys - nodes && c in devices[n].scan ::
            IsLaptopPanel(devices[n].scan[c].name.connector)
          decreases nodes
        {
          var n :| n in nodes;
          var scan := devices[n].scan;
          var crtcs := scan.Keys;
          while crtcs != {}
            invariant crtcs <= scan.Keys
            invariant forall c | c in scan.Keys - crtcs :: IsLaptopPanel(scan[c].name.connector)
            decreases crtcs
          {
            var c :| c in crtcs;
            if !IsLaptopPanel(scan[c].name.connector) {
              return true;
            }
            crtcs := crtcs - {c};
          }
          nodes := nodes - {n};
        }
      }
      return false;
    }

    /** Which CRTCs of one device have to go dark, and which connectors have to be connected. */
    method CollectFor(device: Device, policy: Policy) returns (off: set<Crtc>, on: set<Crtc>)
      ensures forall c :: c in off <==> ToDisconnect(device, c, policy)
      ensures forall c :: c in on <==> ToConnect(device, c, policy, disableNames)
    {
      off, on := {}, {};
      var todo := device.surfaces.Keys;
      while todo != {}
        invariant todo <= device.surfaces.Keys
        invariant forall c :: c in off <==> c !in todo && ToDisconnect(device, c, policy)
        decreases todo
      {
        var c :| c in todo;
        if !policy(device.surfaces[c].name) {
          off := off + {c};
        }
        todo := todo - {c};
      }
      todo := device.scan.Keys;
      while todo != {}
        invariant todo <= device.scan.Keys
        invariant forall c :: c in on <==> c !in todo && ToConnect(device, c, policy, disableNames)
        decreases todo
      {
        var c :| c in todo;
        todo := todo - {c};
        var connector := device.scan[c];
        if !connector.connected {
          continue;
        }
        if c in device.surfaces || (connector.id, c) in device.nonDesktop {
          continue;
        }
        if policy(KnownName(device, c, disableNames)) {
          on := on + {c};
        }
      }
    }

    method Collect(policy: Policy) returns (off: set<(Node, Crtc)>, on: set<(Node, Crtc)>)
      ensures forall n: Node, c: Crtc :: (n, c) in off <==> n in devices && ToDisconnect(devices[n], c, policy)
      ensures forall n: Node, c: Crtc :: (n, c) in on <==> n in devices && ToConnect(devices[n], c, policy, disableNames)
    {
      off, on := {}, {};
      var nodes := devices.Keys;
      while nodes != {}
        invariant nodes <= devices.Keys
        invariant forall n: Node, c: Crtc :: (n, c) in off <==> n in devices.Keys - nodes && ToDisconnect(devices[n], c, policy)
        invariant forall n: Node, c: Crtc :: (n, c) in on <==> n in devices.Keys - nodes && ToConnect(devices[n], c, policy, disableNames)
        decreases nodes
      {
        var n :| n in nodes;
        var offHere, onHere := CollectFor(devices[n], policy);
        off := off + (set c | c in offHere :: (n, c));
        on := on + (set c | c in onHere :: (n, c));
        nodes := nodes - {n};
      }
    }

    method DisconnectAll(off: set<(Node, Crtc)>)
      requires Tracked()
      requires forall n: Node, c: Crtc | (n, c) in off :: n in devices && c in devices[n].surfaces
      modifies this`devices, this`outputs
      ensures Tracked()
      ensures devices == DarkenedAll(old(devices), off)
    {
      var done := {};
      NothingDarkened(devices);
      while off - done != {}
        invariant done <= off && Tracked()
        invariant devices == DarkenedAll(old(devices), done)
        decreases off - done
      {
        var p :| p in off - done;
        var (n, c) := p;
        DarkenAllOneMore(old(devices), devices, done, n, c);
        ConnectorDisconnected(n, c);
        done := done + {p};
      }
      NothingLeft(off, done);
    }

    method ConnectAll(on: set<(Node, Crtc)>, failing: set<(Node, Crtc)>)
      requires Tracked()
      requires forall n: Node, c: Crtc | (n, c) in on :: n in devices && c in devices[n].scan && c !in devices[n].surfaces
      requires forall n: Node, c: Crtc, p | (n, c) in on && p in devices[n].nonDesktop :: p.1 != c
      modifies this`devices, this`outputs
      ensures Tracked()
      ensures devices == BrightenedAll(old(devices), on, disableNames, failing)
    {
      var done := {};
      NothingBrightened(devices, disableNames, failing);
      while on - done != {}
        invariant done <= on && Tracked()
        invariant devices == BrightenedAll(old(devices), done, disableNames, failing)
        decreases on - done
      {
        var p :| p in on - done;
        var (n, c) := p;
        BrightenAllOneMore(old(devices), devices, done, n, c, disableNames, failing);
        var _ := ConnectorConnected(n, c, p in failing);
        done := done + {p};
      }
      NothingLeft(on, done);
    }

    /** One pass over every device: unwanted connectors go dark, and then wanted ones are connected. */
    method Reconcile(policy: Policy, failing: set<(Node, Crtc)>)
      requires Tracked() && DevicesOk(devices, disableNames)
      modifies this`devices, this`outputs
      ensures Tracked()
      ensures devices == Reconciled(old(devices), policy, disableNames, failing)
    {
      var off, on := Collect(policy);
      DisconnectAll(off);
      forall n, c | (n, c) in on
        ensures n in devices && c in devices[n].scan && c !in devices[n].surfaces
        ensures forall p | p in devices[n].nonDesktop :: p.1 != c
      {
        ConnectableAfterDarkening(old(devices), off, policy, disableNames, n, c);
      }
      ConnectAll(on, failing);
      OffThenOnReconcilesAll(old(devices), policy, disableNames, failing, off, on);
    }

    /** Reconciles every device with the configuration; a paused session does it when it resumes. */
    method OnOutputConfigChanged(failing: set<(Node, Crtc)>)
      requires Tracked() && DevicesOk(devices, disableNames)
      modifies this`devices, this`outputs, this`updateConfigOnResume
      ensures Tracked() && DevicesOk(devices, disableNames)
      ensures updateConfigOnResume <==> !sessionActive
      ensures devices ==
        if sessionActive then Reconciled(old(devices), PolicyFor(old(devices), config, lidClosed), disableNames, failing)
        else old(devices)
    {
      if !sessionActive {
        updateConfigOnResume := true;
        return;
      }
      updateConfigOnResume := false;
      var disable := ShouldDisableLaptopPanels();
      var policy := PolicyOf(config, disable);
      ReconciledKeepsOk(devices, policy, disableNames, failing);
      Reconcile(policy, failing);
    }

    /** Withdraws the connectors on `removed` and forgets their names. */
    method ForgetConnectors(n: Node, removed: set<Crtc>)
      requires Tracked() && n in devices
      modifies this`devices, this`outputs
      ensures Tracked()
      ensures devices == old(devices)[n := Cleared(old(devices)[n], removed).(known := old(devices)[n].known - removed)]
    {
      ghost var before := devices[n];
      assert NodeOffersOk(devices, n);
      NothingCleared(before);
      var done := {};
      while removed - done != {}
        invariant done <= removed && Tracked()
        invariant devices == old(devices)[n := Cleared(before, done)]
        decreases removed - done
      {
        var c :| c in removed - done;
        ClearOneMore(before, done, c);
        ConnectorDisconnected(n, c);
        done := done + {c};
      }
      NothingLeft(removed, done);
      ghost var cleared := devices;
      devices := devices[n := devices[n].(known := devices[n].known - removed)];
      assert NodeOffersOk(cleared, n);
      EnabledUnchanged(cleared, devices, n);
      ReplacedOffersFit(cleared, devices, n);
    }

    method IsNameTaken(formatted: string) returns (taken: bool)
      ensures taken <==> NameTaken(devices, formatted)
    {
      var nodes := devices.Keys;
      while nodes != {}
        invariant nodes <= devices.Keys
        invariant forall n, c | n in devices.Keys - nodes && c in devices[n].known :: !devices[n].known[c].Matches(formatted)
        decreases nodes
      {
        var n :| n in nodes;
        var known := devices[n].known;
        var crtcs := known.Keys;
        while crtcs != {}
          invariant crtcs <= known.Keys
          invariant forall c | c in known.Keys - crtcs :: !known[c].Matches(formatted)
          decreases crtcs
        {
          var c :| c in crtcs;
          if known[c].Matches(formatted) {
            return true;
          }
          crtcs := crtcs - {c};
        }
        nodes := nodes - {n};
      }
      return false;
    }

    /** Names the connectors on `order` one by one, each checked against all known so far. */
    method NameConnectors(n: Node, order: seq<Crtc>)
      requires Tracked() && n in devices && Nameless(devices[n], order)
      modifies this`devices
      ensures Tracked()
      ensures devices == NamedInOrder(old(devices), n, order)
    {
      for i := 0 to |order|
        invariant Tracked()
        invariant devices == NamedInOrder(old(devices), n, order[..i])
      {
        assert order[..i + 1][..i] == order[..i];
        NameConnector(n, order[i]);
      }
      assert order[..|order|] == order;
    }

    method NameConnector(n: Node, c: Crtc)
      requires Tracked() && n in devices && c in devices[n].scan && c !in devices[n].known
      modifies this`devices
      ensures Tracked()
      ensures devices == Named(old(devices), n, c)
    {
      var name := devices[n].scan[c].name;
      var taken := IsNameTaken(name.Formatted());
      if taken {
        name := name.Unnamed();
      }
      devices := devices[n := devices[n].(known := devices[n].known[c := name])];
      assert NodeOffersOk(old(devices), n);
      EnabledUnchanged(old(devices), devices, n);
      ReplacedOffersFit(old(devices), devices, n);
    }

    /** Takes in a new scan of one device: stale connectors are withdrawn, and new ones named in the scan's order. */
    method TakeScan(n: Node, scan: map<Crtc, Connector>, order: seq<Crtc>)
      requires Valid() && n in devices && RescanRealistic(devices, n, scan) && ListsNew(order, devices[n].scan, scan)
      modifies this`devices, this`outputs
      ensures Tracked()
      ensures Nameless(Rescanned(old(devices), n, scan)[n], order)
      ensures devices == NamedInOrder(Rescanned(old(devices), n, scan), n, order)
    {
      var device := devices[n];
      var stale := Stale(device, scan);
      assert NodeOffersOk(devices, n) && NodeOk(devices, n, disableNames);
      devices := devices[n := device.(scan := scan)];
      EnabledUnchanged(old(devices), devices, n);
      ReplacedOffersFit(old(devices), devices, n);
      ForgetConnectors(n, stale);
      assert devices == Rescanned(old(devices), n, scan);
      NameConnectors(n, order);
    }

    /**
     * A device has changed. An ignored one is left alone, an unknown one added if it has a path, and a known one
     * rescanned; connectors keep their kind and name while they stay on their CRTC.
     */
    method DeviceChanged(n: Node, probe: Probe, failing: set<(Node, Crtc)>)
      requires Valid() && ProbeRealistic(devices, n, probe)
      modifies this`devices, this`outputs, this`updateConfigOnResume, this`dmabufGlobal, this`parkedLeases
      ensures Valid()
      ensures n in devices <==>
        (n in old(devices) ||
         (!probe.ignored && probe.hasPath && probe.opens && (probe.renderNode.Some? || primaryNode in old(devices)) &&
          (probe.renderNode != Some(primaryRenderNode) || old(dmabufGlobal) || probe.rendererOk)))
      ensures probe.ignored || n !in devices || (n in old(devices) && probe.scan.None?) ==> devices == old(devices)
      ensures n in devices && n !in old(devices) && probe.scan.None? ==>
        devices == old(devices)[n := EmptyDevice(probe.renderNode, probe.leaseOk)]
      ensures parkedLeases == if n in devices && n !in old(devices) then old(parkedLeases) - {n} else old(parkedLeases)
      ensures n in devices && !probe.ignored && probe.scan.Some? ==> Refreshed(old(devices), n, probe, failing)
      decreases if n in devices then 0 else 2
    {
      if probe.ignored {
        return;
      }
      if n !in devices {
        if probe.hasPath {
          var _ := DeviceAdded(n, probe, failing);
        }
        return;
      }
      if probe.scan.None? {
        return;
      }
      Rescan(n, probe.scan.value, probe.order, failing);
    }

    /**
     * A device is tracked with its new scan, the others with their old; what stays keeps its name and use, and all
     * are reconciled if the session is active.
     */
    ghost predicate Refreshed(before: Devices, n: Node, probe: Probe, failing: set<(Node, Crtc)>)
      requires probe.scan.Some?
      reads this
    {
      var start := if n in before then before else before[n := EmptyDevice(probe.renderNode, probe.leaseOk)];
      && OnlyRescanned(start, devices, n, probe.scan.value)
      && AllUsesStay(start, devices, PolicyFor(devices, config, lidClosed), sessionActive)
      && (sessionActive ==> Settled(devices, PolicyFor(devices, config, lidClosed), disableNames, failing))
    }

    /** Takes in the scan of a known device and reconciles. */
    method Rescan(n: Node, scan: map<Crtc, Connector>, order: seq<Crtc>, failing: set<(Node, Crtc)>)
      requires Valid() && n in devices && RescanRealistic(devices, n, scan) && ListsNew(order, devices[n].scan, scan)
      modifies this`devices, this`outputs, this`updateConfigOnResume
      ensures Valid()
      ensures OnlyRescanned(old(devices), devices, n, scan)
      ensures AllUsesStay(old(devices), devices, PolicyFor(devices, config, lidClosed), sessionActive)
      ensures sessionActive ==> Settled(devices, PolicyFor(devices, config, lidClosed), disableNames, failing)
    {
      TakeScan(n, scan, order);
      assert DevicesOk(devices, disableNames) by {
        RescanNamedFits(old(devices), n, scan, order, disableNames);
      }
      OnOutputConfigChanged(failing);
      RescanFinished(old(devices), n, scan, order, sessionActive, config, lidClosed, disableNames, failing);
      SameRenderersUsed(old(devices), devices, primaryRenderNode);
    }

    /**
     * A new device. Opening it, creating the primary renderer or finding an allocator can fail, and then
     * nothing is tracked; otherwise the device starts from an empty scan, and its lease state replaces a parked one.
     */
    method DeviceAdded(n: Node, probe: Probe, failing: set<(Node, Crtc)>) returns (ok: bool)
      requires Valid() && n !in devices && ProbeRealistic(devices, n, probe)
      modifies this`devices, this`outputs, this`updateConfigOnResume, this`dmabufGlobal, this`parkedLeases
      ensures Valid()
      ensures ok <==>
        (probe.ignored || (probe.opens && (probe.renderNode.Some? || primaryNode in old(devices)) &&
                           (probe.renderNode != Some(primaryRenderNode) || old(dmabufGlobal) || probe.rendererOk)))
      ensures !ok || probe.ignored ==>
        devices == old(devices) && parkedLeases == old(parkedLeases) && dmabufGlobal == old(dmabufGlobal)
      ensures ok && !probe.ignored ==>
        n in devices && parkedLeases == old(parkedLeases) - {n} &&
        (probe.scan.None? ==> devices == old(devices)[n := EmptyDevice(probe.renderNode, probe.leaseOk)])
      ensures ok && !probe.ignored && probe.scan.Some? ==> Refreshed(old(devices), n, probe, failing)
      decreases 1
    {
      if probe.ignored {
        return true;
      }
      if !probe.opens {
        return false;
      }
      if probe.renderNode == Some(primaryRenderNode) && !dmabufGlobal {
        if !probe.rendererOk {
          return false;
        }
        dmabufGlobal := true;
      }
      if probe.renderNode.None? && primaryNode !in devices {
        return false;
      }
      Track(n, probe.renderNode, probe.leaseOk);
      DeviceChanged(n, probe, failing);
      return true;
    }

    /** Starts out with an opened device; the primary renderer has been created if the device needs it. */
    method Track(n: Node, renderNode: Option<Node>, leaseOk: bool)
      requires Tracked() && DevicesOk(devices, disableNames) && NamesRealistic(devices) && NamesDistinct(devices)
      requires devices.Keys !! parkedLeases && n !in devices
      requires dmabufGlobal <==> (RendererUsed(devices, primaryRenderNode) || renderNode == Some(primaryRenderNode))
      modifies this`devices, this`parkedLeases
      ensures Valid()
      ensures devices == old(devices)[n := EmptyDevice(renderNode, leaseOk)]
      ensures parkedLeases == old(parkedLeases) - {n}
    {
      devices := devices[n := EmptyDevice(renderNode, leaseOk)];
      parkedLeases := parkedLeases - {n};
      EmptyDeviceFits(old(devices), devices, n, renderNode, leaseOk, disableNames);
      FewerNamesKeepNames(old(devices), devices);
      OneMoreRenders(old(devices), n, devices[n], primaryRenderNode);
    }

    /** An unplugged device: its outputs go, its lease state is parked, and the dmabuf global goes with the last user. */
    method DeviceRemoved(n: Node)
      requires Valid()
      modifies this`devices, this`outputs, this`dmabufGlobal, this`parkedLeases
      ensures Valid()
      ensures devices == old(devices) - {n}
      ensures outputs == set p | p in old(outputs) && p.0 != n
      ensures parkedLeases == if n in old(devices) && old(devices)[n].hasLease then old(parkedLeases) + {n} else old(parkedLeases)
    {
      if n !in devices {
        return;
      }
      var crtcs := devices[n].scan.Keys;
      assert devices[n].surfaces.Keys <= crtcs by {
        assert NodeOk(devices, n, disableNames);
      }
      ForgetConnectors(n, crtcs);
      var device := devices[n];
      devices := devices - {n};
      RemovedDeviceFits(old(devices), devices, n, disableNames);
      FewerNamesKeepNames(old(devices), devices);
      if device.hasLease {
        parkedLeases := parkedLeases + {n};
      }
      DropUnusedGlobal(device.renderNode);
    }

    /** After a device is gone that rendered on `renderNode`; the global goes with its last user. */
    method DropUnusedGlobal(renderNode: Option<Node>)
      requires dmabufGlobal <==> (RendererUsed(devices, primaryRenderNode) || renderNode == Some(primaryRenderNode))
      modifies this`dmabufGlobal
      ensures RendererTracked()
    {
      if renderNode == Some(primaryRenderNode) && !(exists n :: n in devices && devices[n].renderNode == renderNode) {
        if dmabufGlobal {
          dmabufGlobal := false;
        } else {
          assert false;
        }
      }
    }

    /** Lease requests for a node find its live device's state, or the state parked for it. */
    method LeaseState(n: Node) returns (live: bool)
      requires Valid()
      modifies this`devices, this`parkedLeases
      ensures Valid()
      ensures live <==> n in devices
      ensures live ==> n in old(devices) && devices == old(devices)[n := old(devices)[n].(hasLease := true)]
      ensures live ==> parkedLeases == old(parkedLeases)
      ensures !live ==> devices == old(devices) && parkedLeases == old(parkedLeases) + {n}
    {
      live := n in devices;
      if live {
        devices := Leased(devices, n);
        LeasedFits(old(devices), n, disableNames);
        LeasedKeepsNames(old(devices), n);
        EnabledUnchanged(old(devices), devices, n);
        SameRenderersUsed(old(devices), devices, primaryRenderNode);
      } else {
        parkedLeases := parkedLeases + {n};
      }
    }
  }

  lemma EnabledUnchanged(devices: Devices, after: Devices, n: Node)
    requires n in devices && n in after && after == devices[n := after[n]] && after[n].surfaces == devices[n].surfaces
    ensures Enabled(after) == Enabled(devices)
  {
  }

  lemma EnabledLoses(devices: Devices, after: Devices, n: Node, c: Crtc)
    requires n in devices && n in after && after == devices[n := after[n]]
    requires c in devices[n].surfaces && after[n].surfaces == devices[n].surfaces - {c}
    ensures (n, c) in Enabled(devices) && Enabled(after) == Enabled(devices) - {(n, c)}
  {
  }

  lemma EnabledGains(devices: Devices, after: Devices, n: Node, c: Crtc)
    requires n in devices && n in after && after == devices[n := after[n]]
    requires c in after[n].surfaces && after[n].surfaces.Keys == devices[n].surfaces.Keys + {c}
    ensures Enabled(after) == Enabled(devices) + {(n, c)}
  {
  }
}
