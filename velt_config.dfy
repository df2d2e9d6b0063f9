/**
 * The application's configuration object: a JSON object whose seven keys
 * are read by accessors that fall back to a fixed value when a key is absent.
 * Only integral numbers and text are modelled as JSON values.
 */
module VeltConfig {
  import opened Wrappers
  import opened JavaInts

  /** A JSON value as the accessors see it: an integral number or text. */
  datatype JsonNode = NumberNode(n: int) | TextNode(text: string)

  /** The JSON object behind the configuration, from key to value. */
  type Config = map<string, JsonNode>

  const BRIDGE_ID: string := "bridgeId"
  const DATA_PLANE_PORT: string := "dataPlanePort"
  const VM_PORT_1: string := "vmPort1"
  const VM_PORT_2: string := "vmPort2"
  const SITE_VLAN: string := "siteVlan"
  const TEMP_VLAN: string := "tempVlan"
  const DEFAULT_PRIORITY: string := "defaultPriority"

  function DigitChar(d: int): char
    requires 0 <= d < 10
  {
    "0123456789"[d]
  }

  function NatText(n: nat): (r: string)
    ensures |r| > 0
    ensures forall i :: 0 <= i < |r| ==> '0' <= r[i] <= '9'
  {
    if n < 10 then [DigitChar(n)] else NatText(n / 10) + [DigitChar(n % 10)]
  }

  /** Jackson's `asText()`: a number is rendered in decimal, text is returned as is. */
  function AsText(node: JsonNode): (r: string)
  {
    match node
    case NumberNode(n) => if n < 0 then "-" + NatText(-n) else NatText(n)
    case TextNode(t) => t
  }

  /** Jackson's `asLong()`; text nodes are taken to be non-numeric and give 0. */
  function AsLong(node: JsonNode): (r: int64)
  {
    match node
    case NumberNode(n) => ToLong(n)
    case TextNode(_) => 0
  }

  /** Jackson's `asInt()`; text nodes are taken to be non-numeric and give 0. */
  function AsInt(node: JsonNode): (r: int32)
  {
    match node
    case NumberNode(n) => ToInt(n)
    case TextNode(_) => 0
  }

  /** `bridgeId()`: null when the key is absent, otherwise the value's text. */
  function BridgeId(cfg: Config): (r: Option<string>)
    ensures r.None? <==> BRIDGE_ID !in cfg
    ensures BRIDGE_ID in cfg && cfg[BRIDGE_ID].TextNode? ==> r == Some(cfg[BRIDGE_ID].text)
  {
    if BRIDGE_ID in cfg then Some(AsText(cfg[BRIDGE_ID])) else None
  }

  /** The shared shape of the three port accessors. */
  function PortAt(cfg: Config, key: string): (r: int64)
    ensures key !in cfg ==> r == 0
    ensures key in cfg && cfg[key].NumberNode? && IsLong(cfg[key].n) ==> r == cfg[key].n
  {
    if key in cfg then AsLong(cfg[key]) else 0
  }

  /** `dataPlanePort()` */
  function DataPlanePort(cfg: Config): (r: int64)
    ensures DATA_PLANE_PORT !in cfg ==> r == 0
    ensures DATA_PLANE_PORT in cfg && cfg[DATA_PLANE_PORT].NumberNode? && IsLong(cfg[DATA_PLANE_PORT].n)
      ==> r == cfg[DATA_PLANE_PORT].n
  {
    PortAt(cfg, DATA_PLANE_PORT)
  }

  /** `vmPort1()` */
  function VmPort1(cfg: Config): (r: int64)
    ensures VM_PORT_1 !in cfg ==> r == 0
    ensures VM_PORT_1 in cfg && cfg[VM_PORT_1].NumberNode? && IsLong(cfg[VM_PORT_1].n)
      ==> r == cfg[VM_PORT_1].n
  {
    PortAt(cfg, VM_PORT_1)
  }

  /** `vmPort2()` */
  function VmPort2(cfg: Config): (r: int64)
    ensures VM_PORT_2 !in cfg ==> r == 0
    ensures VM_PORT_2 in cfg && cfg[VM_PORT_2].NumberNode? && IsLong(cfg[VM_PORT_2].n)
      ==> r == cfg[VM_PORT_2].n
  {
    PortAt(cfg, VM_PORT_2)
  }

  /** The shared shape of the two VLAN accessors: `(short) asInt()`. */
  function VlanAt(cfg: Config, key: string): (r: int16)
    ensures key !in cfg ==> r == 0
    ensures key in cfg && cfg[key].NumberNode? && IsShort(cfg[key].n) ==> r == cfg[key].n
  {
    if key in cfg then ToShort(AsInt(cfg[key])) else 0
  }

  /** `siteVlan()` */
  function SiteVlan(cfg: Config): (r: int16)
    ensures SITE_VLAN !in cfg ==> r == 0
    ensures SITE_VLAN in cfg && cfg[SITE_VLAN].NumberNode? && 0 <= cfg[SITE_VLAN].n <= 4095
      ==> r == cfg[SITE_VLAN].n
  {
    VlanAt(cfg, SITE_VLAN)
  }

  /** `tempVlan()` */
  function TempVlan(cfg: Config): (r: int16)
    ensures TEMP_VLAN !in cfg ==> r == 0
    ensures TEMP_VLAN in cfg && cfg[TEMP_VLAN].NumberNode? && 0 <= cfg[TEMP_VLAN].n <= 4095
      ==> r == cfg[TEMP_VLAN].n
  {
    VlanAt(cfg, TEMP_VLAN)
  }

  /**
   * A present numeric VLAN is narrowed through `int` to `short`: the result
   * is the one 16-bit value congruent to the configured number modulo 2^16.
   */
  lemma VlanNarrowing(cfg: Config, key: string)
    requires key in cfg && cfg[key].NumberNode?
    ensures (VlanAt(cfg, key) - cfg[key].n) % SHORT_MODULUS == 0
    ensures VlanAt(cfg, key) == ToShort(cfg[key].n)
  {
    ShortOfInt(cfg[key].n);
  }

  /** `defaultPriority()` */
  function DefaultPriority(cfg: Config): (r: int32)
    ensures DEFAULT_PRIORITY !in cfg ==> r == 0
    ensures DEFAULT_PRIORITY in cfg && cfg[DEFAULT_PRIORITY].NumberNode? && IsInt(cfg[DEFAULT_PRIORITY].n)
      ==> r == cfg[DEFAULT_PRIORITY].n
  {
    if DEFAULT_PRIORITY in cfg then AsInt(cfg[DEFAULT_PRIORITY]) else 0
  }

  /** Each accessor reads its own key and no other: writing any other key leaves it unchanged. */
  lemma AccessorsReadOwnKey(cfg: Config, key: string, node: JsonNode)
    ensures key != BRIDGE_ID ==> BridgeId(cfg[key := node]) == BridgeId(cfg)
    ensures key != DATA_PLANE_PORT ==> DataPlanePort(cfg[key := node]) == DataPlanePort(cfg)
    ensures key != VM_PORT_1 ==> VmPort1(cfg[key := node]) == VmPort1(cfg)
    ensures key != VM_PORT_2 ==> VmPort2(cfg[key := node]) == VmPort2(cfg)
    ensures key != SITE_VLAN ==> SiteVlan(cfg[key := node]) == SiteVlan(cfg)
    ensures key != TEMP_VLAN ==> TempVlan(cfg[key := node]) == TempVlan(cfg)
    ensures key != DEFAULT_PRIORITY ==> DefaultPriority(cfg[key := node]) == DefaultPriority(cfg)
  {
  }
}
