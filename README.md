# Velt flow-rule populator, modelled in Dafny

Velt is an application for the ONOS SDN controller. On each added or updated
configuration of its own class it reads seven scalar fields (bridge id, an
uplink port, two VM ports, a site VLAN, a temporary VLAN and a priority) and
installs four VLAN-swap forwarding objectives on the switch whose id equals the
bridge id. On shutdown it withdraws every rule owned by its application id.

The model has five modules:

- `Wrappers` (`wrappers.dfy`): `Option`, which stands for a Java reference that may be null.
- `JavaInts` (`java_ints.dfy`): Java's `short`/`int`/`long` as subset types of `int`, with the narrowing casts written out as two's-complement wrap-around.
- `VeltConfig` (`velt_config.dfy`): the configuration object as a map from key to JSON value (an integral number or text), and the seven accessors, each falling back to `null`/0 when its key is absent.
- `FlowRules` (`flow_rules.dfy`): the forwarding-objective record, the pure construction `BuildObjective` done by `installDefaultRule`, the four rules in submission order, and `PassCalls`, the calls one pass over the device inventory makes. The lemmas give the count of submissions, their order and their fixed fields.
- `Populator` (`populator.dfy`): the component as the class `DefaultFlowRulesPopulator`, with the source's seven fields plus `bridgeID` and `appId`. The calls it makes on host services go to the log field `calls`. Its methods are proved against pure state-transition functions (`AfterPopulate`, `AfterReadConfiguration`, `AfterEvent`), and the lemmas about listener behaviour are stated over those functions. `Lifecycle` is a client that runs activation, any number of notifications and deactivation.

The host's services appear as inputs. The device inventory is a sequence of device ids. The registry's answer to the configuration lookup is an `Option<Config>`. The id handed out by the application registry is an `AppId` given to `Activate`. Every other service call is appended to `calls`. The Java field `defaultProiority` is spelled `defaultPriority` here.

## Model

| member | source | states |
|---|---|---|
| `JavaInts.ToShort` | src/main/java/org/onosproject/velt/VeltConfig.java:116 | `(short)` gives a 16-bit value congruent to its input modulo 2^16, and leaves a value already in range unchanged |
| `JavaInts.ToInt` | src/main/java/org/onosproject/velt/VeltConfig.java:154 | `asInt()` of an integral number gives a 32-bit value congruent modulo 2^32, and leaves an `int` unchanged |
| `JavaInts.ToLong` | src/main/java/org/onosproject/velt/VeltConfig.java:59 | `asLong()` of an integral number gives a 64-bit value congruent modulo 2^64, and leaves a `long` unchanged |
| `JavaInts.ShortOfInt` | src/main/java/org/onosproject/velt/VeltConfig.java:116 | narrowing to `int` before `short` gives the same short as narrowing directly |
| `VeltConfig.BridgeId` | src/main/java/org/onosproject/velt/VeltConfig.java:33-45 | null exactly when the key is absent; a present text value is returned as is |
| `VeltConfig.DataPlanePort` | src/main/java/org/onosproject/velt/VeltConfig.java:52-64 | 0 when absent; a present numeric value in `long` range is returned unchanged |
| `VeltConfig.VmPort1` | src/main/java/org/onosproject/velt/VeltConfig.java:71-83 | 0 when absent; a present numeric value in `long` range is returned unchanged |
| `VeltConfig.VmPort2` | src/main/java/org/onosproject/velt/VeltConfig.java:90-102 | 0 when absent; a present numeric value in `long` range is returned unchanged |
| `VeltConfig.SiteVlan` | src/main/java/org/onosproject/velt/VeltConfig.java:109-121 | 0 when absent; the result is a `short`; a present value in 0..4095 comes back unchanged |
| `VeltConfig.TempVlan` | src/main/java/org/onosproject/velt/VeltConfig.java:128-140 | 0 when absent; the result is a `short`; a present value in 0..4095 comes back unchanged |
| `VeltConfig.VlanNarrowing` | src/main/java/org/onosproject/velt/VeltConfig.java:109-140 | a present numeric VLAN comes back as the one `short` congruent to it modulo 2^16 |
| `VeltConfig.DefaultPriority` | src/main/java/org/onosproject/velt/VeltConfig.java:147-159 | 0 when absent; a present numeric value in `int` range is returned unchanged |
| `VeltConfig.AccessorsReadOwnKey` | src/main/java/org/onosproject/velt/VeltConfig.java:20-26 | writing any key other than an accessor's own leaves that accessor's result unchanged |
| `FlowRules.BuildObjective` | src/main/java/org/onosproject/velt/DefaultFlowRulesPopulator.java:150-173 | the objective matches exactly the in-port and in-VLAN. It rewrites the VLAN if and only if `outVlan != 0`, and then to `outVlan`. Its last action, and only that one, outputs to `outPort`. Priority, app id, VERSATILE, permanent and ADD are fixed |
| `FlowRules.FourRulesShape` | src/main/java/org/onosproject/velt/DefaultFlowRulesPopulator.java:138-145 | the four rules in order: data→vm1 on site VLAN, vm2→data on site VLAN rewritten to temp, data→vm2 on temp VLAN, vm1→data on temp VLAN rewritten to site; a zero target VLAN gives no rewrite |
| `FlowRules.PassCallsCount` | src/main/java/org/onosproject/velt/DefaultFlowRulesPopulator.java:133-147 | a pass submits 4 × (number of listed devices equal to the bridge id) objectives |
| `FlowRules.PassCallsRepeatFourRules` | src/main/java/org/onosproject/velt/DefaultFlowRulesPopulator.java:133-147 | call i of a pass submits rule i mod 4 of the four rules to the bridge |
| `FlowRules.BridgeAbsentSubmitsNothing` | src/main/java/org/onosproject/velt/DefaultFlowRulesPopulator.java:133-134 | a bridge not in the inventory gets no submissions |
| `FlowRules.BridgeOnceSubmitsFourRules` | src/main/java/org/onosproject/velt/DefaultFlowRulesPopulator.java:133-146 | a bridge listed once gets exactly the four rules, in order |
| `FlowRules.PassCallsAreForwards` | src/main/java/org/onosproject/velt/DefaultFlowRulesPopulator.java:152-176 | every call of a pass is a submission to the bridge with the fixed fields, matching a configured port and VLAN |
| `Populator.IgnoredEventChangesNothing` | src/main/java/org/onosproject/velt/DefaultFlowRulesPopulator.java:209-222 | a notification for another class, or of a kind other than added/updated, changes no field and makes no call |
| `Populator.MissingConfigKeepsFields` | src/main/java/org/onosproject/velt/DefaultFlowRulesPopulator.java:184-188 | with no configuration registered, all fields keep their values and only the lookup is made |
| `Populator.HandledEventInstalls` | src/main/java/org/onosproject/velt/DefaultFlowRulesPopulator.java:182-200 | an added/updated event overwrites the seven fields from the configuration, sets the bridge's device id, and submits one pass: 1 + 4 × matches new calls |
| `Populator.NullBridgeSubmitsNothing` | src/main/java/org/onosproject/velt/DefaultFlowRulesPopulator.java:192-200 | a configuration without a bridge id overwrites the fields but submits nothing |
| `Populator.TwoEventsTwoPasses` | src/main/java/org/onosproject/velt/DefaultFlowRulesPopulator.java:216-219 | two handled events in a row append two full passes; nothing is deduplicated |
| `Populator.EventNeverRemoves` | src/main/java/org/onosproject/velt/DefaultFlowRulesPopulator.java:206-224 | an event only extends the log, and only with lookups and submissions |
| `Populator.WorkedExample` | src/main/java/org/onosproject/velt/DefaultFlowRulesPopulator.java:138-145 | bridge "sw1", ports 1/2/3, VLANs 100/200, priority 50 give exactly the four expected objectives |
| `Populator.DefaultFlowRulesPopulator.constructor` | src/main/java/org/onosproject/velt/DefaultFlowRulesPopulator.java:92-102 | fields start at Java's defaults (null and 0), no call made |
| `Populator.DefaultFlowRulesPopulator.Activate` | src/main/java/org/onosproject/velt/DefaultFlowRulesPopulator.java:105-115 | sets `appId` to the registry's answer; registers the application, the factory, then the listener |
| `Populator.DefaultFlowRulesPopulator.Deactivate` | src/main/java/org/onosproject/velt/DefaultFlowRulesPopulator.java:117-127 | withdraws the app's rules, then unregisters the factory, then removes the listener |
| `Populator.DefaultFlowRulesPopulator.InstallDefaultRule` | src/main/java/org/onosproject/velt/DefaultFlowRulesPopulator.java:150-177 | appends one submission of `BuildObjective`'s rule to the bridge's device id |
| `Populator.DefaultFlowRulesPopulator.PopulateFlowRules` | src/main/java/org/onosproject/velt/DefaultFlowRulesPopulator.java:129-148 | the loop over the inventory leaves the state `AfterPopulate` describes |
| `Populator.DefaultFlowRulesPopulator.ReadConfiguration` | src/main/java/org/onosproject/velt/DefaultFlowRulesPopulator.java:182-204 | the lookup, the seven assignments and the pass leave the state `AfterReadConfiguration` describes |
| `Populator.DefaultFlowRulesPopulator.Event` | src/main/java/org/onosproject/velt/DefaultFlowRulesPopulator.java:206-224 | the listener leaves the state `AfterEvent` describes |
| `Populator.Lifecycle` | src/main/java/org/onosproject/velt/DefaultFlowRulesPopulator.java:105-127 | over activation, any notifications and deactivation, the rules are withdrawn exactly once, before the factory and listener are released (the last two calls) |

## Left out

- Host-framework wiring: service injection and the `eventExecutor`. The executor is created and shut down but never used, because the listener runs `readConfiguration` on the caller's thread. There is no concurrency to model. The executor's shutdown in `deactivate` is not logged.
- The registry's delivery of notifications is not modelled. `Event` requires that the component is active, since the listener is registered only between `activate` and `deactivate`.
- ONOS builders and flow-objective compilation: an objective is a plain record, and a submission is a `Forward` entry in the log.
- `DeviceId.deviceId`, `PortNumber.portNumber` and `VlanId.vlanId` are library code and not part of this model. A device id is its text, compared by string equality, and every non-null text is taken to be a valid id. Ports and VLANs are carried as the `long`/`short` values, without VlanId's range checks.
- `Populator.AfterPopulate`: for a null bridge id the model takes `DeviceId.deviceId(null)` to raise before any device is examined. So the pass submits nothing and `bridgeID` keeps its old value. The seven fields are already overwritten by then. The exception's travel to the registry is not modelled.
- Jackson coercion: a JSON value is an integral number or text. A number's `asText()` is its decimal text. A text value's `asInt()`/`asLong()` is taken to be 0, the fallback for non-numeric text. Parsing numeric text such as `"5"` is not modelled. Fractional numbers, JSON `null`, booleans and nested values are not modelled either.
- The `catch (IllegalArgumentException)` branches of the accessors, and all logging.
- Accessor purity: the accessors are functions over an immutable map, so they cannot change the configuration, and commuting or repeating them is immediate.
