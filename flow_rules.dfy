/**
 * The forwarding objectives the populator derives from its configuration,
 * and the calls an installation pass makes on the host controller.
 */
module FlowRules {
  import opened Wrappers
  import opened JavaInts

  /** A device identifier; two ids are the same device when their texts are equal. */
  datatype DeviceId = DeviceId(uri: string)

  /** The identity the host's application registry hands out; opaque here. */
  datatype AppId = AppId(id: int, name: string)

  /** The match part of a rule: ingress port and VLAN tag. */
  datatype Selector = Selector(inPort: int64, vlanId: int16)

  /** One action of a rule's treatment, in the order the actions are applied. */
  datatype Instruction = SetVlanId(vlan: int16) | Output(port: int64)

  datatype Flag = Specific | Versatile

  datatype Operation = Add | Remove

  /** A forwarding objective as the populator hands it to the flow-objective service. */
  datatype ForwardingObjective = ForwardingObjective(
    selector: Selector,
    treatment: seq<Instruction>,
    priority: int32,
    flag: Flag,
    appId: AppId,
    permanent: bool,
    op: Operation)

  /** The seven configuration fields the populator keeps. */
  datatype Settings = Settings(
    bridgeId: Option<string>,
    priority: int32,
    dataPort: int64,
    vmPort1: int64,
    vmPort2: int64,
    siteVlan: int16,
    tempVlan: int16)

  /** A call the populator makes on one of the host's services, in the order made. */
  datatype HostCall =
    | RegisterApplication(name: string)
    | RegisterConfigFactory
    | AddListener
    | GetConfig(app: AppId)
    | Forward(device: DeviceId, objective: ForwardingObjective)
    | RemoveFlowRulesById(app: AppId)
    | UnregisterConfigFactory
    | RemoveListener

  /** True when some action of the treatment rewrites the VLAN tag. */
  predicate RewritesVlan(obj: ForwardingObjective)
  {
    exists i :: 0 <= i < |obj.treatment| && obj.treatment[i].SetVlanId?
  }

  /** The fields every objective of this application carries, whatever its ports and VLANs. */
  predicate HasFixedFields(obj: ForwardingObjective, priority: int32, app: AppId)
  {
    obj.priority == priority && obj.flag == Versatile && obj.appId == app
    && obj.permanent && obj.op == Add
  }

  /** The rule `installDefaultRule` builds from its four arguments and the priority and app id. */
  function BuildObjective(inPort: int64, outPort: int64, inVlan: int16, outVlan: int16,
                          priority: int32, app: AppId): (r: ForwardingObjective)
    ensures r.selector.inPort == inPort && r.selector.vlanId == inVlan
    ensures |r.treatment| > 0 && r.treatment[|r.treatment| - 1] == Output(outPort)
    ensures RewritesVlan(r) <==> outVlan != 0
    ensures forall i :: 0 <= i < |r.treatment| && r.treatment[i].SetVlanId? ==> r.treatment[i].vlan == outVlan
    ensures forall i :: 0 <= i < |r.treatment| - 1 ==> !r.treatment[i].Output?
    ensures HasFixedFields(r, priority, app)
  {
    var treatment := if outVlan != 0 then [SetVlanId(outVlan), Output(outPort)] else [Output(outPort)];
    assert outVlan != 0 ==> treatment[0].SetVlanId?;
    ForwardingObjective(Selector(inPort, inVlan), treatment, priority, Versatile, app, true, Add)
  }

  /** The four VLAN-swap rules installed for the bridge, in the order they are submitted. */
  function FourRules(s: Settings, app: AppId): seq<ForwardingObjective>
  {
    [ BuildObjective(s.dataPort, s.vmPort1, s.siteVlan, 0, s.priority, app),
      BuildObjective(s.vmPort2, s.dataPort, s.siteVlan, s.tempVlan, s.priority, app),
      BuildObjective(s.dataPort, s.vmPort2, s.tempVlan, 0, s.priority, app),
      BuildObjective(s.vmPort1, s.dataPort, s.tempVlan, s.siteVlan, s.priority, app) ]
  }

  /** The output port of a rule: the port of its last action. */
  function OutPort(obj: ForwardingObjective): int64
    requires |obj.treatment| > 0 && obj.treatment[|obj.treatment| - 1].Output?
  {
    obj.treatment[|obj.treatment| - 1].port
  }

  /**
   * The four rules swap the site and temporary VLANs between the uplink and
   * the two VM ports; a rewrite appears exactly when its target VLAN is non-zero.
   */
  lemma FourRulesShape(s: Settings, app: AppId)
    ensures |FourRules(s, app)| == 4
    ensures forall k :: 0 <= k < 4 ==> HasFixedFields(FourRules(s, app)[k], s.priority, app)
    ensures var r := FourRules(s, app)[0];
      r.selector == Selector(s.dataPort, s.siteVlan) && OutPort(r) == s.vmPort1 && !RewritesVlan(r)
    ensures var r := FourRules(s, app)[1];
      r.selector == Selector(s.vmPort2, s.siteVlan) && OutPort(r) == s.dataPort
      && (RewritesVlan(r) <==> s.tempVlan != 0)
      && (s.tempVlan != 0 ==> r.treatment == [SetVlanId(s.tempVlan), Output(s.dataPort)])
    ensures var r := FourRules(s, app)[2];
      r.selector == Selector(s.dataPort, s.tempVlan) && OutPort(r) == s.vmPort2 && !RewritesVlan(r)
    ensures var r := FourRules(s, app)[3];
      r.selector == Selector(s.vmPort1, s.tempVlan) && OutPort(r) == s.dataPort
      && (RewritesVlan(r) <==> s.siteVlan != 0)
      && (s.siteVlan != 0 ==> r.treatment == [SetVlanId(s.siteVlan), Output(s.dataPort)])
  {
  }

  /** The four submissions one matching device triggers, all sent to the bridge. */
  function InstallCalls(bridge: DeviceId, s: Settings, app: AppId): (r: seq<HostCall>)
    ensures |r| == 4
  {
    var rules := FourRules(s, app);
    [ Forward(bridge, rules[0]), Forward(bridge, rules[1]),
      Forward(bridge, rules[2]), Forward(bridge, rules[3]) ]
  }

  /**
   * The calls one pass over the device inventory makes: the four rules once
   * for every listed device whose id equals the bridge id, in list order.
   */
  function PassCalls(devices: seq<DeviceId>, bridge: DeviceId, s: Settings, app: AppId): seq<HostCall>
  {
    if devices == [] then []
    else
      var last := devices[|devices| - 1];
      PassCalls(devices[..|devices| - 1], bridge, s, app)
      + (if last == bridge then InstallCalls(bridge, s, app) else [])
  }

  /** A pass submits four objectives per matching device, so none when the bridge is not listed. */
  lemma {:induction false} PassCallsCount(devices: seq<DeviceId>, bridge: DeviceId, s: Settings, app: AppId)
    ensures |PassCalls(devices, bridge, s, app)| == 4 * multiset(devices)[bridge]
  {
    if devices != [] {
      var init := devices[..|devices| - 1];
      assert devices == init + [devices[|devices| - 1]];
      PassCallsCount(init, bridge, s, app);
    }
  }

  /**
   * Every call of a pass submits, to the bridge, the rule of FourRules whose
   * index is the call's position modulo 4: the pass repeats the four rules in order.
   */
  lemma {:induction false} PassCallsRepeatFourRules(devices: seq<DeviceId>, bridge: DeviceId, s: Settings, app: AppId)
    ensures |PassCalls(devices, bridge, s, app)| % 4 == 0
    ensures forall i :: 0 <= i < |PassCalls(devices, bridge, s, app)| ==>
      PassCalls(devices, bridge, s, app)[i] == Forward(bridge, FourRules(s, app)[i % 4])
  {
    if devices != [] {
      var init := devices[..|devices| - 1];
      PassCallsRepeatFourRules(init, bridge, s, app);
      var pre := PassCalls(init, bridge, s, app);
      var all := PassCalls(devices, bridge, s, app);
      if devices[|devices| - 1] == bridge {
        assert all == pre + InstallCalls(bridge, s, app);
        forall i | |pre| <= i < |all|
          ensures all[i] == Forward(bridge, FourRules(s, app)[i % 4])
        {
          assert (i - |pre|) % 4 == i % 4;
        }
      } else {
        assert all == pre;
      }
    }
  }

  /** With the bridge absent from the inventory, a pass submits nothing. */
  lemma BridgeAbsentSubmitsNothing(devices: seq<DeviceId>, bridge: DeviceId, s: Settings, app: AppId)
    requires bridge !in devices
    ensures PassCalls(devices, bridge, s, app) == []
  {
    PassCallsCount(devices, bridge, s, app);
  }

  /** With the bridge listed exactly once, a pass submits exactly the four rules, in order. */
  lemma BridgeOnceSubmitsFourRules(devices: seq<DeviceId>, bridge: DeviceId, s: Settings, app: AppId)
    requires multiset(devices)[bridge] == 1
    ensures PassCalls(devices, bridge, s, app) == InstallCalls(bridge, s, app)
  {
    PassCallsCount(devices, bridge, s, app);
    PassCallsRepeatFourRules(devices, bridge, s, app);
  }

  /**
   * Every call of a pass is a submission to the bridge of an objective that
   * matches one of the configured ports and VLANs and carries the fixed fields.
   */
  lemma PassCallsAreForwards(devices: seq<DeviceId>, bridge: DeviceId, s: Settings, app: AppId)
    ensures forall c :: c in PassCalls(devices, bridge, s, app) ==>
      c.Forward? && c.device == bridge && HasFixedFields(c.objective, s.priority, app)
      && c.objective.selector.inPort in {s.dataPort, s.vmPort1, s.vmPort2}
      && c.objective.selector.vlanId in {s.siteVlan, s.tempVlan}
  {
    PassCallsRepeatFourRules(devices, bridge, s, app);
    FourRulesShape(s, app);
  }
}
