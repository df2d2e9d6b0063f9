/**
 * The populator component: it keeps the seven configuration fields, reloads
 * them on every added or updated configuration of its own class, and then
 * installs the four VLAN-swap rules on the bridge. The host services it
 * talks to are represented by the log of calls it makes on them.
 */
module Populator {
  import opened Wrappers
  import opened JavaInts
  import opened VeltConfig
  import opened FlowRules

  /** The name the component registers itself under. */
  const APP_NAME: string := "org.onosproject.velt"

  /** The configuration class the component registers and listens for. */
  const VELT_CONFIG_CLASS: string := "org.onosproject.velt.VeltConfig"

  datatype EventType = ConfigAdded | ConfigUpdated | ConfigRemoved | ConfigRegistered | ConfigUnregistered

  /** A configuration-change notification: its kind and the class of the configuration it concerns. */
  datatype ConfigEvent = ConfigEvent(kind: EventType, configClass: string)

  /** The notifications the listener acts on. */
  predicate Handles(ev: ConfigEvent)
  {
    ev.configClass == VELT_CONFIG_CLASS && (ev.kind == ConfigAdded || ev.kind == ConfigUpdated)
  }

  /** The seven fields as `readConfiguration` reads them from a configuration object. */
  function Load(cfg: Config): Settings
  {
    Settings(BridgeId(cfg), DefaultPriority(cfg), DataPlanePort(cfg), VmPort1(cfg), VmPort2(cfg),
             SiteVlan(cfg), TempVlan(cfg))
  }

  /** The part of the component's state that configuration events change. */
  datatype Snapshot = Snapshot(settings: Settings, bridgeID: Option<DeviceId>, calls: seq<HostCall>)

  /**
   * The state after `populateFlowRules`. Turning a null bridge id into a
   * device id raises before any device is examined, so nothing is submitted.
   */
  function AfterPopulate(st: Snapshot, devices: seq<DeviceId>, app: AppId): Snapshot
  {
    match st.settings.bridgeId
    case None => st
    case Some(b) =>
      Snapshot(st.settings, Some(DeviceId(b)), st.calls + PassCalls(devices, DeviceId(b), st.settings, app))
  }

  /**
   * The state after `readConfiguration`, given what the configuration registry
   * holds for the application (`found`) and the devices the inventory lists.
   */
  function AfterReadConfiguration(st: Snapshot, found: Option<Config>, devices: seq<DeviceId>, app: AppId): Snapshot
  {
    var asked := st.(calls := st.calls + [GetConfig(app)]);
    match found
    case None => asked
    case Some(cfg) => AfterPopulate(asked.(settings := Load(cfg)), devices, app)
  }

  /** The state after the listener has been told of `ev`. */
  function AfterEvent(st: Snapshot, ev: ConfigEvent, found: Option<Config>, devices: seq<DeviceId>, app: AppId): Snapshot
  {
    if Handles(ev) then AfterReadConfiguration(st, found, devices, app) else st
  }

  /** A notification of another kind or for another configuration class changes nothing and calls nothing. */
  lemma IgnoredEventChangesNothing(st: Snapshot, ev: ConfigEvent, found: Option<Config>, devices: seq<DeviceId>, app: AppId)
    requires !Handles(ev)
    ensures AfterEvent(st, ev, found, devices, app) == st
  {
  }

  /** With no configuration registered, the fields keep their values and only the lookup is made. */
  lemma MissingConfigKeepsFields(st: Snapshot, devices: seq<DeviceId>, app: AppId)
    ensures AfterReadConfiguration(st, None, devices, app)
      == Snapshot(st.settings, st.bridgeID, st.calls + [GetConfig(app)])
  {
  }

  /**
   * A handled event whose configuration names a bridge overwrites all seven
   * fields and submits four objectives per listed device with the bridge's id.
   */
  lemma HandledEventInstalls(st: Snapshot, ev: ConfigEvent, cfg: Config, devices: seq<DeviceId>, app: AppId)
    requires Handles(ev) && BridgeId(cfg).Some?
    ensures var after := AfterEvent(st, ev, Some(cfg), devices, app);
      var bridge := DeviceId(BridgeId(cfg).value);
      after.settings == Load(cfg) && after.bridgeID == Some(bridge)
      && after.calls == st.calls + [GetConfig(app)] + PassCalls(devices, bridge, Load(cfg), app)
      && |after.calls| == |st.calls| + 1 + 4 * multiset(devices)[bridge]
  {
    PassCallsCount(devices, DeviceId(BridgeId(cfg).value), Load(cfg), app);
  }

  /** A configuration without a bridge id overwrites the fields but submits nothing. */
  lemma NullBridgeSubmitsNothing(st: Snapshot, ev: ConfigEvent, cfg: Config, devices: seq<DeviceId>, app: AppId)
    requires Handles(ev) && BRIDGE_ID !in cfg
    ensures AfterEvent(st, ev, Some(cfg), devices, app)
      == Snapshot(Load(cfg), st.bridgeID, st.calls + [GetConfig(app)])
  {
  }

  /** Two handled events in a row each run a full pass: nothing is deduplicated. */
  lemma TwoEventsTwoPasses(st: Snapshot, e1: ConfigEvent, e2: ConfigEvent, cfg: Config, devices: seq<DeviceId>, app: AppId)
    requires Handles(e1) && Handles(e2) && BridgeId(cfg).Some?
    ensures var pass := [GetConfig(app)] + PassCalls(devices, DeviceId(BridgeId(cfg).value), Load(cfg), app);
      AfterEvent(AfterEvent(st, e1, Some(cfg), devices, app), e2, Some(cfg), devices, app).calls
        == st.calls + pass + pass
  {
    var pass := [GetConfig(app)] + PassCalls(devices, DeviceId(BridgeId(cfg).value), Load(cfg), app);
    HandledEventInstalls(st, e1, cfg, devices, app);
    var mid := AfterEvent(st, e1, Some(cfg), devices, app);
    HandledEventInstalls(mid, e2, cfg, devices, app);
    assert mid.calls == st.calls + pass;
  }

  /** An event adds only lookups and submissions to the log: never a removal. */
  lemma EventNeverRemoves(st: Snapshot, ev: ConfigEvent, found: Option<Config>, devices: seq<DeviceId>, app: AppId)
    ensures var after := AfterEvent(st, ev, found, devices, app);
      |st.calls| <= |after.calls| && after.calls[..|st.calls|] == st.calls
      && forall i :: |st.calls| <= i < |after.calls| ==> after.calls[i].GetConfig? || after.calls[i].Forward?
  {
    if Handles(ev) && found.Some? {
      var cfg := found.value;
      match BridgeId(cfg)
      case None =>
      case Some(b) => PassCallsAreForwards(devices, DeviceId(b), Load(cfg), app);
    }
  }

  /**
   * Bridge "sw1" listed once among the devices, uplink 1, VM ports 2 and 3,
   * site VLAN 100, temporary VLAN 200, priority 50: exactly these four submissions.
   */
  lemma WorkedExample(st: Snapshot, ev: ConfigEvent, app: AppId)
    requires Handles(ev)
    ensures var cfg := map[BRIDGE_ID := TextNode("sw1"), DATA_PLANE_PORT := NumberNode(1),
                           VM_PORT_1 := NumberNode(2), VM_PORT_2 := NumberNode(3),
                           SITE_VLAN := NumberNode(100), TEMP_VLAN := NumberNode(200),
                           DEFAULT_PRIORITY := NumberNode(50)];
      var sw1 := DeviceId("sw1");
      AfterEvent(st, ev, Some(cfg), [DeviceId("sw0"), sw1, DeviceId("sw2")], app).calls == st.calls + [
        GetConfig(app),
        Forward(sw1, ForwardingObjective(Selector(1, 100), [Output(2)], 50, Versatile, app, true, Add)),
        Forward(sw1, ForwardingObjective(Selector(3, 100), [SetVlanId(200), Output(1)], 50, Versatile, app, true, Add)),
        Forward(sw1, ForwardingObjective(Selector(1, 200), [Output(3)], 50, Versatile, app, true, Add)),
        Forward(sw1, ForwardingObjective(Selector(2, 200), [SetVlanId(100), Output(1)], 50, Versatile, app, true, Add))]
  {
    var cfg := map[BRIDGE_ID := TextNode("sw1"), DATA_PLANE_PORT := NumberNode(1),
                   VM_PORT_1 := NumberNode(2), VM_PORT_2 := NumberNode(3),
                   SITE_VLAN := NumberNode(100), TEMP_VLAN := NumberNode(200),
                   DEFAULT_PRIORITY := NumberNode(50)];
    var devices := [DeviceId("sw0"), DeviceId("sw1"), DeviceId("sw2")];
    var s := Load(cfg);
    assert s == Settings(Some("sw1"), 50, 1, 2, 3, 100, 200);
    assert multiset(devices)[DeviceId("sw1")] == 1;
    BridgeOnceSubmitsFourRules(devices, DeviceId("sw1"), s, app);
  }

  class DefaultFlowRulesPopulator {
    var bridgeId: Option<string>
    var defaultPriority: int32
    var dataInterface: int64
    var vmInterface1: int64
    var vmInterface2: int64
    var siteVlan: int16
    var tempVlan: int16

    var bridgeID: Option<DeviceId>
    var appId: Option<AppId>

    /** The calls made so far on the host's services, oldest first. */
    var calls: seq<HostCall>

    /** Between `activate` and `deactivate`: the listener is registered. */
    ghost var active: bool

    ghost predicate Valid()
      reads this
    {
      active ==> appId.Some?
    }

    function CurrentSettings(): Settings
      reads this
    {
      Settings(bridgeId, defaultPriority, dataInterface, vmInterface1, vmInterface2, siteVlan, tempVlan)
    }

    function State(): Snapshot
      reads this
    {
      Snapshot(CurrentSettings(), bridgeID, calls)
    }

    /** A new component: Java's default field values, no calls made yet. */
    constructor ()
      ensures Valid() && !active && appId == None && calls == []
      ensures State() == Snapshot(Settings(None, 0, 0, 0, 0, 0, 0), None, [])
    {
      bridgeId := None;
      defaultPriority, dataInterface, vmInterface1, vmInterface2, siteVlan, tempVlan := 0, 0, 0, 0, 0, 0;
      bridgeID := None;
      appId := None;
      calls := [];
      active := false;
    }

    /**
     * `activate`: registers the application (the registry answers `registered`),
     * then the configuration factory, then the listener.
     */
    method Activate(registered: AppId)
      requires Valid() && !active
      modifies this
      ensures Valid() && active && appId == Some(registered)
      ensures State() == old(State()).(calls := old(calls) + [RegisterApplication(APP_NAME), RegisterConfigFactory, AddListener])
    {
      calls := calls + [RegisterApplication(APP_NAME)];
      appId := Some(registered);
      calls := calls + [RegisterConfigFactory, AddListener];
      active := true;
    }

    /**
     * `deactivate`: withdraws every rule of the application before
     * unregistering the configuration factory and removing the listener.
     */
    method Deactivate()
      requires Valid() && active
      modifies this
      ensures Valid() && !active && appId == old(appId)
      ensures State() == old(State()).(calls := old(calls) + [RemoveFlowRulesById(old(appId).value), UnregisterConfigFactory, RemoveListener])
    {
      calls := calls + [RemoveFlowRulesById(appId.value)];
      calls := calls + [UnregisterConfigFactory, RemoveListener];
      active := false;
    }

    /** `installDefaultRule`: builds one objective and submits it to the bridge. */
    method InstallDefaultRule(inPort: int64, outPort: int64, inVlan: int16, outVlan: int16)
      requires bridgeId.Some? && appId.Some?
      modifies this`calls
      ensures calls == old(calls)
        + [Forward(DeviceId(bridgeId.value), BuildObjective(inPort, outPort, inVlan, outVlan, defaultPriority, appId.value))]
    {
      var objective := BuildObjective(inPort, outPort, inVlan, outVlan, defaultPriority, appId.value);
      calls := calls + [Forward(DeviceId(bridgeId.value), objective)];
    }

    /** `populateFlowRules`: one pass over the inventory, installing the four rules on each device that is the bridge. */
    method PopulateFlowRules(devices: seq<DeviceId>)
      requires appId.Some?
      modifies this`bridgeID, this`calls
      ensures State() == AfterPopulate(old(State()), devices, appId.value)
    {
      if bridgeId.None? {
        // DeviceId.deviceId(null) raises here: the pass ends before the loop.
        return;
      }
      var bridge := DeviceId(bridgeId.value);
      bridgeID := Some(bridge);
      for i := 0 to |devices|
        invariant bridgeID == Some(bridge)
        invariant calls == old(calls) + PassCalls(devices[..i], bridge, CurrentSettings(), appId.value)
      {
        assert devices[..i + 1][..i] == devices[..i];
        if devices[i] == bridge {
          InstallDefaultRule(dataInterface, vmInterface1, siteVlan, 0);
          InstallDefaultRule(vmInterface2, dataInterface, siteVlan, tempVlan);
          InstallDefaultRule(dataInterface, vmInterface2, tempVlan, 0);
          InstallDefaultRule(vmInterface1, dataInterface, tempVlan, siteVlan);
        }
      }
      assert devices[..|devices|] == devices;
    }

    /** `readConfiguration`: looks the configuration up, copies its seven fields and repopulates. */
    method ReadConfiguration(found: Option<Config>, devices: seq<DeviceId>)
      requires appId.Some?
      modifies this`bridgeId, this`defaultPriority, this`dataInterface, this`vmInterface1,
               this`vmInterface2, this`siteVlan, this`tempVlan, this`bridgeID, this`calls
      ensures State() == AfterReadConfiguration(old(State()), found, devices, appId.value)
    {
      calls := calls + [GetConfig(appId.value)];
      if found.None? {
        return;
      }
      var config := found.value;
      bridgeId := BridgeId(config);
      defaultPriority := DefaultPriority(config);
      dataInterface := DataPlanePort(config);
      vmInterface1 := VmPort1(config);
      vmInterface2 := VmPort2(config);
      siteVlan := SiteVlan(config);
      tempVlan := TempVlan(config);
      PopulateFlowRules(devices);
    }

    /** The configuration listener's `event`. */
    method Event(ev: ConfigEvent, found: Option<Config>, devices: seq<DeviceId>)
      requires Valid() && active
      modifies this`bridgeId, this`defaultPriority, this`dataInterface, this`vmInterface1,
               this`vmInterface2, this`siteVlan, this`tempVlan, this`bridgeID, this`calls
      ensures Valid() && active
      ensures State() == AfterEvent(old(State()), ev, found, devices, appId.value)
    {
      if ev.configClass != VELT_CONFIG_CLASS {
        return;
      }
      match ev.kind
      case ConfigAdded => ReadConfiguration(found, devices);
      case ConfigUpdated => ReadConfiguration(found, devices);
      case _ =>
    }
  }

  /** One configuration notification as the host delivers it, with what the registry and inventory hold then. */
  datatype Delivery = Delivery(ev: ConfigEvent, found: Option<Config>, devices: seq<DeviceId>)

  /**
   * A whole life of the component: activation, any notifications, deactivation.
   * The rules are withdrawn exactly once, and before the factory and the
   * listener are released, which are the last two calls.
   */
  method Lifecycle(registered: AppId, deliveries: seq<Delivery>) returns (log: seq<HostCall>)
    ensures |log| >= 6
    ensures log[..3] == [RegisterApplication(APP_NAME), RegisterConfigFactory, AddListener]
    ensures log[|log| - 3..] == [RemoveFlowRulesById(registered), UnregisterConfigFactory, RemoveListener]
    ensures forall i :: 3 <= i < |log| - 3 ==> log[i].GetConfig? || log[i].Forward?
    ensures multiset(log)[RemoveFlowRulesById(registered)] == 1
  {
    var populator := new DefaultFlowRulesPopulator();
    populator.Activate(registered);
    for k := 0 to |deliveries|
      invariant populator.Valid() && populator.active && populator.appId == Some(registered)
      invariant |populator.calls| >= 3
      invariant populator.calls[..3] == [RegisterApplication(APP_NAME), RegisterConfigFactory, AddListener]
      invariant forall i :: 3 <= i < |populator.calls| ==> populator.calls[i].GetConfig? || populator.calls[i].Forward?
    {
      var d := deliveries[k];
      ghost var before := populator.State();
      populator.Event(d.ev, d.found, d.devices);
      EventNeverRemoves(before, d.ev, d.found, d.devices, registered);
    }
    ghost var middle := populator.calls;
    populator.Deactivate();
    log := populator.calls;
    assert log == middle + [RemoveFlowRulesById(registered), UnregisterConfigFactory, RemoveListener];
    assert RemoveFlowRulesById(registered) !in multiset(middle) by {
      assert RemoveFlowRulesById(registered) !in middle;
    }
  }
}
