/**
 * `DataDirectorPLUMgrid`: the controller URL paths and request bodies the
 * plugin's driver sends to PLUMgrid Director. Every builder is a pure function
 * of its identifiers and the class constants; identifiers are cut to their
 * first six characters where the source slices them with `[:6]`.
 */
module DataDirector {
  import opened Util
  import opened Json
  import MacAddress

  const BaseDirectorUrl := "/0/connectivity/domain/"
  const RuleDirectorUrl := "/0/pem_master/ifc_rule_logical/"
  const RuleDirectorCmUrl := "/0/connectivity/rule/"
  const CdbBaseUrl := "/0/cdb/folder/"
  const TrueFlag := true

  /** How many leading characters of an identifier go into a path (`[:6]`). */
  const IdLength: nat := 6

  /** The topology template every domain, bridge and router names. */
  const TopologyName := "quantum-based"

  /** The domain path as rule bodies write it, without the leading "/0". */
  const DomainDest := "/connectivity/domain/"

  /** The action every element with dynamic interfaces carries. */
  const CreateAndLinkAction := "create_and_link_ifc(DYN_)"

  // ---------------------------------------------------------------- URLs

  function CreateCdbDomain(tenantId: string): (url: string)
    ensures CdbBaseUrl <= url && url[|CdbBaseUrl|..] == tenantId
  {
    CdbBaseUrl + tenantId
  }

  /** The topology URL extends the tenant's domain URL. */
  function CreateCdbTopology(tenantId: string): (url: string)
    ensures CreateCdbDomain(tenantId) <= url
    ensures url[|CreateCdbDomain(tenantId)|..] == "/domain/" + TopologyName
  {
    CdbBaseUrl + tenantId + "/domain/quantum-based"
  }

  /** The logical rule URL: the whole tenant id, '_', and its first six characters. */
  function CreateRuleUrl(tenantId: string): (url: string)
    ensures RuleDirectorUrl <= url
    ensures url[|RuleDirectorUrl|..] == tenantId + "_" + Take(tenantId, IdLength)
    ensures |url| == |RuleDirectorUrl| + |tenantId| + 1 + Min(|tenantId|, IdLength)
  {
    RuleDirectorUrl + tenantId + "_" + Take(tenantId, 6)
  }

  /** Distinct tenants get distinct logical rule URLs: the URL's length fixes the id's length. */
  lemma RuleUrlInjective(a: string, b: string)
    requires CreateRuleUrl(a) == CreateRuleUrl(b)
    ensures a == b
  {
    var url := CreateRuleUrl(a);
    assert |a| == |b|;
    var n := |RuleDirectorUrl|;
    assert url[n..][..|a|] == a;
    assert CreateRuleUrl(b)[n..][..|b|] == b;
  }

  /** The connectivity rule URL: the first six characters of the tenant id. */
  function CreateRuleCmUrl(tenantId: string): (url: string)
    ensures RuleDirectorCmUrl <= url && url[|RuleDirectorCmUrl|..] == Take(tenantId, IdLength)
    ensures |url| <= |RuleDirectorCmUrl| + IdLength
  {
    RuleDirectorCmUrl + Take(tenantId, 6)
  }

  /** Two tenants share a connectivity rule URL exactly when their ids share the six-character prefix. */
  lemma RuleCmUrlShared(a: string, b: string)
    ensures CreateRuleCmUrl(a) == CreateRuleCmUrl(b) <==> Take(a, IdLength) == Take(b, IdLength)
  {
    if CreateRuleCmUrl(a) == CreateRuleCmUrl(b) {
      assert CreateRuleCmUrl(a)[|RuleDirectorCmUrl|..] == CreateRuleCmUrl(b)[|RuleDirectorCmUrl|..];
    }
  }

  /** So two distinct tenants can collide on it. */
  lemma RuleCmUrlCollision()
    ensures "abcdef01" != "abcdef02"
    ensures CreateRuleCmUrl("abcdef01") == CreateRuleCmUrl("abcdef02")
  {
    RuleCmUrlShared("abcdef01", "abcdef02");
    assert Take("abcdef01", 6) == "abcdef" == Take("abcdef02", 6);
  }

  /** The element name in an ne URL: the element, '_', and the first six characters of the network id. */
  function NeName(ne: string, netId: string): string
  {
    ne + "_" + Take(netId, IdLength)
  }

  /** A network element's URL under the tenant's domain. */
  function CreateNeUrl(tenantId: string, netId: string, ne: string): (url: string)
    ensures BaseDirectorUrl <= url
    ensures url == BaseDirectorUrl + tenantId + "/ne/" + NeName(ne, netId)
    ensures |url| <= |BaseDirectorUrl + tenantId + "/ne/" + ne + "_"| + IdLength
  {
    BaseDirectorUrl + tenantId + "/ne/" + ne + "_" + Take(netId, 6)
  }

  /** Within one tenant and element kind, the URL identifies the network id's six-character prefix and nothing more. */
  lemma NeUrlIdentifiesPrefix(tenantId: string, ne: string, netA: string, netB: string)
    ensures CreateNeUrl(tenantId, netA, ne) == CreateNeUrl(tenantId, netB, ne) <==>
      Take(netA, IdLength) == Take(netB, IdLength)
  {
    var head := BaseDirectorUrl + tenantId + "/ne/" + ne + "_";
    if CreateNeUrl(tenantId, netA, ne) == CreateNeUrl(tenantId, netB, ne) {
      assert CreateNeUrl(tenantId, netA, ne) == head + Take(netA, 6);
      assert CreateNeUrl(tenantId, netB, ne) == head + Take(netB, 6);
      assert (head + Take(netA, 6))[|head|..] == Take(netA, 6);
      assert (head + Take(netB, 6))[|head|..] == Take(netB, 6);
    }
  }

  function LinkUrlHead(tenantId: string): string
  {
    BaseDirectorUrl + tenantId + "/link/"
  }

  /** A link's URL; its name is at most twelve characters, six from each id, the second id defaulting to "". */
  function CreateLinkUrl(tenantId: string, prefixLinkId: string, sufixLinkId: string := ""): (url: string)
    ensures LinkUrlHead(tenantId) <= url
    ensures url[|LinkUrlHead(tenantId)|..] == Take(prefixLinkId, IdLength) + Take(sufixLinkId, IdLength)
    ensures |url| <= |LinkUrlHead(tenantId)| + 2 * IdLength
  {
    BaseDirectorUrl + tenantId + "/link/" + Take(prefixLinkId, 6) + Take(sufixLinkId, 6)
  }

  /**
   * When the first id has at least six characters, the link URL determines
   * both truncated ids.
   */
  lemma LinkUrlIdentifiesPrefixes(tenantId: string, p1: string, s1: string, p2: string, s2: string)
    requires |p1| >= IdLength && |p2| >= IdLength
    ensures CreateLinkUrl(tenantId, p1, s1) == CreateLinkUrl(tenantId, p2, s2) <==>
      Take(p1, IdLength) == Take(p2, IdLength) && Take(s1, IdLength) == Take(s2, IdLength)
  {
    var n := |LinkUrlHead(tenantId)|;
    if CreateLinkUrl(tenantId, p1, s1) == CreateLinkUrl(tenantId, p2, s2) {
      var name1 := Take(p1, 6) + Take(s1, 6);
      var name2 := Take(p2, 6) + Take(s2, 6);
      assert name1 == name2;
      assert name1[..6] == Take(p1, 6) && name2[..6] == Take(p2, 6);
      assert name1[6..] == Take(s1, 6) && name2[6..] == Take(s2, 6);
    }
  }

  /** With a short first id, two different pairs of ids name the same link. */
  lemma LinkUrlAmbiguous(tenantId: string)
    ensures CreateLinkUrl(tenantId, "ab", "c") == CreateLinkUrl(tenantId, "a", "bc")
  {
    assert Take("ab", 6) + Take("c", 6) == "abc" == Take("a", 6) + Take("bc", 6);
  }

  // ---------------------------------------------------------------- rule bodies

  /** The tenant-level connectivity rule: tag "pgtag1" matching the tenant routes into the tenant's domain. */
  function CreateRuleCmBodyData(tenantId: string): (body: JVal)
    ensures KeysAt(body, []) == {"criteria", "add_context", "match", "domain_dest"}
    ensures StrAt(body, ["criteria"]) == Some("pgtag1")
    ensures StrAt(body, ["add_context"]) == Some("first-level-rule")
    ensures StrAt(body, ["match"]) == Some(tenantId)
    ensures StrAt(body, ["domain_dest"]) == Some(DomainDest + tenantId)
  {
    JObj(map[
      "criteria" := JStr("pgtag1"),
      "add_context" := JStr("first-level-rule"),
      "match" := JStr(tenantId),
      "domain_dest" := JStr("/connectivity/domain/" + tenantId)])
  }

  /** The tenant-level logical rule: "pgtag1" is the tenant id, routed into the tenant's domain. */
  function CreateRuleBodyData(tenantId: string): (body: JVal)
    ensures KeysAt(body, []) == {"domain_dest", "pgtag1"}
    ensures StrAt(body, ["domain_dest"]) == Some(DomainDest + tenantId)
    ensures StrAt(body, ["pgtag1"]) == Some(tenantId)
  {
    JObj(map["domain_dest" := JStr("/connectivity/domain/" + tenantId), "pgtag1" := JStr(tenantId)])
  }

  /** The domain URL is the rule bodies' domain path under "/0". */
  lemma BaseDirectorUrlIsDomainDest()
    ensures BaseDirectorUrl == "/0" + DomainDest
  {
  }

  /** Both tenant rules send traffic to the domain whose URL the ne URLs are built under. */
  lemma TenantRulesAgree(tenantId: string)
    ensures StrAt(CreateRuleCmBodyData(tenantId), ["domain_dest"]) == StrAt(CreateRuleBodyData(tenantId), ["domain_dest"])
    ensures StrAt(CreateRuleCmBodyData(tenantId), ["match"]) == StrAt(CreateRuleBodyData(tenantId), ["pgtag1"])
    ensures "/0" + StrAt(CreateRuleBodyData(tenantId), ["domain_dest"]).value == BaseDirectorUrl + tenantId
  {
    BaseDirectorUrlIsDomainDest();
  }

  /** The network-level rule: traffic matching `criteria`/`match` goes to the element's first action. */
  function NetworkLevelRuleBodyData(tenantId: string, neName: string, criteria: string, matchValue: string := "None"): (body: JVal)
    ensures KeysAt(body, []) == {"ne_dest", "rule"} && KeysAt(body, ["rule"]) == {"1"}
    ensures StrAt(body, ["ne_dest"]) == Some(DomainDest + tenantId + "/ne/" + neName + "/action/action1")
    ensures KeysAt(body, ["rule", "1"]) == {"add_context", "criteria", "match"}
    ensures StrAt(body, ["rule", "1", "add_context"]) == Some("second-level-rule")
    ensures StrAt(body, ["rule", "1", "criteria"]) == Some(criteria)
    ensures StrAt(body, ["rule", "1", "match"]) == Some(matchValue)
  {
    JObj(map[
      "ne_dest" := JStr("/connectivity/domain/" + tenantId + "/ne/" + neName + "/action/action1"),
      "rule" := JObj(map["1" := JObj(map[
        "add_context" := JStr("second-level-rule"),
        "criteria" := JStr(criteria),
        "match" := JStr(matchValue)])])])
  }

  /** A network-level rule for the element named as in `CreateNeUrl` targets that element's URL. */
  lemma NetworkRuleTargetsNe(tenantId: string, netId: string, ne: string, criteria: string, matchValue: string)
    ensures "/0" + StrAt(NetworkLevelRuleBodyData(tenantId, NeName(ne, netId), criteria, matchValue), ["ne_dest"]).value
      == CreateNeUrl(tenantId, netId, ne) + "/action/action1"
  {
    BaseDirectorUrlIsDomainDest();
  }

  /** With the match argument omitted, the rule's match is the text "None". */
  lemma NetworkRuleDefaultMatch(tenantId: string, neName: string, criteria: string)
    ensures StrAt(NetworkLevelRuleBodyData(tenantId, neName, criteria), ["rule", "1", "match"]) == Some("None")
  {
  }

  // ---------------------------------------------------------------- domain bodies

  function CreateDomainBodyData(netId: string): (body: JVal)
    ensures KeysAt(body, []) == {"container_group", "topology_name"}
    ensures StrAt(body, ["container_group"]) == Some(netId)
    ensures StrAt(body, ["topology_name"]) == Some(TopologyName)
  {
    JObj(map["container_group" := JStr(netId), "topology_name" := JStr("quantum-based")])
  }

  /** The tenant container: enabled, Gold, DHCP service on, no domains and no rules yet. */
  function CreateTenantDomainBodyData(tenantId: string): (body: JVal)
    ensures KeysAt(body, []) == {"containers"} && KeysAt(body, ["containers"]) == {tenantId}
    ensures var container := Member(body, ["containers"], tenantId);
      && KeysAt(container, []) == {"enable", "qos_marking", "type", "property", "services_enabled", "domains", "rules"}
      && At(container, ["enable"]) == Some(JBool(TrueFlag))
      && StrAt(container, ["qos_marking"]) == Some("9")
      && StrAt(container, ["type"]) == Some("Gold")
      && StrAt(container, ["property"]) == Some("Container " + tenantId + " Property")
      && KeysAt(container, ["services_enabled"]) == {"DHCP"}
      && KeysAt(container, ["services_enabled", "DHCP"]) == {"service_type"}
      && StrAt(container, ["services_enabled", "DHCP", "service_type"]) == Some("DHCP")
      && At(container, ["domains"]) == Some(JObj(map[]))
      && At(container, ["rules"]) == Some(JObj(map[]))
  {
    JObj(map["containers" := JObj(map[tenantId := JObj(map[
      "enable" := JBool(TrueFlag),
      "qos_marking" := JStr("9"),
      "type" := JStr("Gold"),
      "property" := JStr("Container " + tenantId + " Property"),
      "services_enabled" := JObj(map["DHCP" := JObj(map["service_type" := JStr("DHCP")])]),
      "domains" := JObj(map[]),
      "rules" := JObj(map[])])])])
  }

  /** The tenant's NAT service pool, the two addresses passed through unchanged. */
  function UpdateTenantDomainBodyData(natPoolIpStart: string, natPoolIpEnd: string): (body: JVal)
    ensures KeysAt(body, []) == {"service_name", "ip_start", "ip_end"}
    ensures StrAt(body, ["service_name"]) == Some("GW_NAT_1")
    ensures StrAt(body, ["ip_start"]) == Some(natPoolIpStart)
    ensures StrAt(body, ["ip_end"]) == Some(natPoolIpEnd)
  {
    JObj(map["service_name" := JStr("GW_NAT_1"), "ip_start" := JStr(natPoolIpStart), "ip_end" := JStr(natPoolIpEnd)])
  }

  // ---------------------------------------------------------------- link bodies

  /** An attachment point: interface `ifc` of element `ne`. */
  function Attachment(ne: string, ifc: string): string
  {
    "/ne/" + ne + "/ifc/" + ifc
  }

  /** A static link whose interface names are cut to six characters and default to "1". */
  function CreateLinkBodyData(neStart: string, neEnd: string, ifcNameNeStart: string := "1", ifcNameNeEnd: string := "1"): (body: JVal)
    ensures KeysAt(body, []) == {"link_type", "attachment1", "attachment2"}
    ensures StrAt(body, ["link_type"]) == Some("static")
    ensures StrAt(body, ["attachment1"]) == Some(Attachment(neStart, Take(ifcNameNeStart, IdLength)))
    ensures StrAt(body, ["attachment2"]) == Some(Attachment(neEnd, Take(ifcNameNeEnd, IdLength)))
  {
    JObj(map[
      "link_type" := JStr("static"),
      "attachment1" := JStr("/ne/" + neStart + "/ifc/" + Take(ifcNameNeStart, 6)),
      "attachment2" := JStr("/ne/" + neEnd + "/ifc/" + Take(ifcNameNeEnd, 6))])
  }

  /** A static link with the interface names taken whole. */
  function CreateGenLinkBodyData(firstNeName: string, secondNeName: string, firstIfcName: string, secondIfcName: string): (body: JVal)
    ensures KeysAt(body, []) == {"link_type", "attachment1", "attachment2"}
    ensures StrAt(body, ["link_type"]) == Some("static")
    ensures StrAt(body, ["attachment1"]) == Some(Attachment(firstNeName, firstIfcName))
    ensures StrAt(body, ["attachment2"]) == Some(Attachment(secondNeName, secondIfcName))
  {
    JObj(map[
      "link_type" := JStr("static"),
      "attachment1" := JStr("/ne/" + firstNeName + "/ifc/" + firstIfcName),
      "attachment2" := JStr("/ne/" + secondNeName + "/ifc/" + secondIfcName)])
  }

  /**
   * The truncating link body is the general one applied to the truncated
   * names; for names of six characters or fewer the two agree, and the
   * defaults are interface "1" on both ends.
   */
  lemma LinkBodyTruncatesGenLink(neStart: string, neEnd: string, ifcStart: string, ifcEnd: string)
    ensures CreateLinkBodyData(neStart, neEnd, ifcStart, ifcEnd)
      == CreateGenLinkBodyData(neStart, neEnd, Take(ifcStart, IdLength), Take(ifcEnd, IdLength))
    ensures |ifcStart| <= IdLength && |ifcEnd| <= IdLength ==>
      CreateLinkBodyData(neStart, neEnd, ifcStart, ifcEnd) == CreateGenLinkBodyData(neStart, neEnd, ifcStart, ifcEnd)
    ensures CreateLinkBodyData(neStart, neEnd) == CreateGenLinkBodyData(neStart, neEnd, "1", "1")
  {
  }

  // ---------------------------------------------------------------- network elements

  /** The kinds of network element the builders describe. */
  datatype NeKind = Bridge | Dhcp | Router | Nat | Wire | Gateway

  function NeTypeName(kind: NeKind): string
  {
    match kind
    case Bridge => "bridge"
    case Dhcp => "dhcp"
    case Router => "router"
    case Nat => "nat"
    case Wire => "wire"
    case Gateway => "gateway"
  }

  /** The element kind a body declares in "ne_type". */
  function ReadNeType(body: JVal): Option<NeKind>
  {
    match StrAt(body, ["ne_type"])
    case None => None
    case Some(t) =>
      if t == "bridge" then Some(Bridge)
      else if t == "dhcp" then Some(Dhcp)
      else if t == "router" then Some(Router)
      else if t == "nat" then Some(Nat)
      else if t == "wire" then Some(Wire)
      else if t == "gateway" then Some(Gateway)
      else None
  }

  /** Every declared interface is static. */
  ghost predicate StaticInterfaces(body: JVal)
  {
    forall name :: name in KeysAt(body, ["ifc"]) ==> StrAt(Member(body, ["ifc"], name), ["ifc_type"]) == Some("static")
  }

  /** What every element body shares: its kind, mobility "true" and static interfaces. */
  ghost predicate ElementBody(body: JVal, kind: NeKind)
  {
    && ReadNeType(body) == Some(kind)
    && StrAt(body, ["ne_type"]) == Some(NeTypeName(kind))
    && StrAt(body, ["mobility"]) == Some("true")
    && StaticInterfaces(body)
  }

  /** The single action "action1" holding only the create-and-link text. */
  ghost predicate CreateAndLinkOnly(body: JVal)
  {
    && KeysAt(body, ["action"]) == {"action1"}
    && KeysAt(body, ["action", "action1"]) == {"action_text"}
    && StrAt(body, ["action", "action1", "action_text"]) == Some(CreateAndLinkAction)
  }

  /** A bridge in the tenant's container, with one static interface "1". */
  function CreateBridgeBodyData(tenantId: string, bridgeName: string): (body: JVal)
    ensures ElementBody(body, Bridge)
    ensures KeysAt(body, []) ==
      {"ne_type", "mobility", "ne_dname", "ifc", "action", "container_group", "topology_name"}
    ensures StrAt(body, ["ne_dname"]) == Some(bridgeName)
    ensures KeysAt(body, ["ifc"]) == {"1"} && KeysAt(body, ["ifc", "1"]) == {"ifc_type"}
    ensures CreateAndLinkOnly(body)
    ensures StrAt(body, ["container_group"]) == Some(tenantId)
    ensures StrAt(body, ["topology_name"]) == Some(TopologyName)
  {
    JObj(map[
      "ne_type" := JStr("bridge"),
      "mobility" := JStr("true"),
      "ne_dname" := JStr(bridgeName),
      "ifc" := JObj(map["1" := JObj(map["ifc_type" := JStr("static")])]),
      "action" := JObj(map["action1" := JObj(map["action_text" := JStr("create_and_link_ifc(DYN_)")])]),
      "container_group" := JStr(tenantId),
      "topology_name" := JStr("quantum-based")])
  }

  /** The seven settings of a DHCP element. */
  datatype DhcpSettings = DhcpSettings(
    name: string, serverIp: string, serverMask: string,
    rangeStart: string, rangeEnd: string, dnsIp: string, defaultGateway: string)

  /** Reads the DHCP settings back from a body; None when one of them is missing. */
  function ReadDhcpBody(body: JVal): Option<DhcpSettings>
  {
    var name := StrAt(body, ["ne_dname"]);
    var ip := StrAt(body, ["ifc", "1", "dhcp_server_ip"]);
    var mask := StrAt(body, ["ifc", "1", "dhcp_server_mask"]);
    var start := StrAt(body, ["ifc", "1", "ip_range_start"]);
    var end := StrAt(body, ["ifc", "1", "ip_range_end"]);
    var dns := StrAt(body, ["ifc", "1", "dns_ip"]);
    var gw := StrAt(body, ["ifc", "1", "default_gateway"]);
    if name.Some? && ip.Some? && mask.Some? && start.Some? && end.Some? && dns.Some? && gw.Some? then
      Some(DhcpSettings(name.value, ip.value, mask.value, start.value, end.value, dns.value, gw.value))
    else None
  }

  /** A DHCP element on interface "1"; its seven arguments read back unchanged. */
  function CreateDhcpBodyData(dhcpName: string, dhcpServerIp: string, dhcpServerMask: string,
                              ipRangeStart: string, ipRangeEnd: string, dnsIp: string, defaultGateway: string): (body: JVal)
    ensures ElementBody(body, Dhcp)
    ensures KeysAt(body, []) == {"ne_type", "mobility", "ne_dname", "ifc"}
    ensures KeysAt(body, ["ifc"]) == {"1"}
    ensures KeysAt(body, ["ifc", "1"]) ==
      {"ifc_type", "dhcp_server_ip", "dhcp_server_mask", "ip_range_start", "ip_range_end", "dns_ip", "default_gateway"}
    ensures ReadDhcpBody(body) ==
      Some(DhcpSettings(dhcpName, dhcpServerIp, dhcpServerMask, ipRangeStart, ipRangeEnd, dnsIp, defaultGateway))
  {
    JObj(map[
      "ne_type" := JStr("dhcp"),
      "mobility" := JStr("true"),
      "ne_dname" := JStr(dhcpName),
      "ifc" := JObj(map["1" := JObj(map[
        "ifc_type" := JStr("static"),
        "dhcp_server_ip" := JStr(dhcpServerIp),
        "dhcp_server_mask" := JStr(dhcpServerMask),
        "ip_range_start" := JStr(ipRangeStart),
        "ip_range_end" := JStr(ipRangeEnd),
        "dns_ip" := JStr(dnsIp),
        "default_gateway" := JStr(defaultGateway)])])])
  }

  /**
   * A router in the tenant's container, carrying the generated MAC address
   * at `config["0"]["user_mac"]`; the three random bytes are parameters.
   */
  function CreateRouterBodyData(tenantId: string, routerName: string, b3: nat, b4: nat, b5: nat): (body: JVal)
    requires b3 <= 0x7f && b4 <= 0xff && b5 <= 0xff
    ensures ElementBody(body, Router)
    ensures KeysAt(body, []) ==
      {"ne_type", "mobility", "ne_dname", "action", "config", "container_group", "topology_name"}
    ensures StrAt(body, ["ne_dname"]) == Some(routerName)
    ensures CreateAndLinkOnly(body)
    ensures KeysAt(body, ["config"]) == {"0"} && KeysAt(body, ["config", "0"]) == {"user_mac"}
    ensures StrAt(body, ["container_group"]) == Some(tenantId)
    ensures StrAt(body, ["topology_name"]) == Some(TopologyName)
    ensures StrAt(body, ["config", "0", "user_mac"]) == Some(MacAddress.CreateMac(b3, b4, b5))
  {
    var mac := MacAddress.CreateMac(b3, b4, b5);
    var body := JObj(map[
      "ne_type" := JStr("router"),
      "mobility" := JStr("true"),
      "ne_dname" := JStr(routerName),
      "action" := JObj(map["action1" := JObj(map["action_text" := JStr("create_and_link_ifc(DYN_)")])]),
      "config" := JObj(map["0" := JObj(map["user_mac" := JStr(mac)])]),
      "container_group" := JStr(tenantId),
      "topology_name" := JStr("quantum-based")]);
    assert StrAt(body, ["config", "0", "user_mac"]) == Some(mac);
    body
  }

  /** A NAT element with an inside and an outside zone that allows all outbound traffic; the tenant id is not used. */
  function CreateNatBodyData(tenantId: string, natName: string): (body: JVal)
    ensures ElementBody(body, Nat)
    ensures KeysAt(body, []) == {"ne_type", "mobility", "ne_dname", "ne_name", "ifc", "outbound_cfg"}
    ensures StrAt(body, ["ne_dname"]) == Some("nat-1") && StrAt(body, ["ne_name"]) == Some(natName)
    ensures KeysAt(body, ["ifc"]) == {"inside", "outside"}
    ensures forall zone :: zone in KeysAt(body, ["ifc"]) ==>
      KeysAt(Member(body, ["ifc"], zone), []) == {"ifc_type", "zone"} && StrAt(Member(body, ["ifc"], zone), ["zone"]) == Some(zone)
    ensures KeysAt(body, ["outbound_cfg"]) == {"outbound_cfg"}
    ensures KeysAt(body, ["outbound_cfg", "outbound_cfg"]) == {"allow_all", "allow_icmp"}
    ensures At(body, ["outbound_cfg", "outbound_cfg", "allow_all"]) == Some(JBool(TrueFlag))
    ensures At(body, ["outbound_cfg", "outbound_cfg", "allow_icmp"]) == Some(JBool(TrueFlag))
  {
    var inside := JObj(map["ifc_type" := JStr("static"), "zone" := JStr("inside")]);
    var outside := JObj(map["ifc_type" := JStr("static"), "zone" := JStr("outside")]);
    var body := JObj(map[
      "ne_type" := JStr("nat"),
      "mobility" := JStr("true"),
      "ne_dname" := JStr("nat-1"),
      "ne_name" := JStr(natName),
      "ifc" := JObj(map["inside" := inside, "outside" := outside]),
      "outbound_cfg" := JObj(map["outbound_cfg" := JObj(map[
        "allow_all" := JBool(TrueFlag),
        "allow_icmp" := JBool(TrueFlag)])])]);
    assert Member(body, ["ifc"], "inside") == inside && Member(body, ["ifc"], "outside") == outside;
    body
  }

  /** A connector wire with one ingress interface; the tenant id is not used. */
  function CreateWireBodyData(tenantId: string, wireName: string): (body: JVal)
    ensures ElementBody(body, Wire)
    ensures KeysAt(body, []) == {"ne_type", "mobility", "ne_group", "ne_name", "ifc", "action"}
    ensures StrAt(body, ["ne_group"]) == Some("connector") && StrAt(body, ["ne_name"]) == Some(wireName)
    ensures KeysAt(body, ["ifc"]) == {"ingress"} && KeysAt(body, ["ifc", "ingress"]) == {"ifc_type", "if_context"}
    ensures StrAt(body, ["ifc", "ingress", "if_context"]) == Some("IN")
    ensures CreateAndLinkOnly(body)
  {
    JObj(map[
      "ne_type" := JStr("wire"),
      "mobility" := JStr("true"),
      "ne_group" := JStr("connector"),
      "ne_name" := JStr(wireName),
      "ifc" := JObj(map["ingress" := JObj(map["ifc_type" := JStr("static"), "if_context" := JStr("IN")])]),
      "action" := JObj(map["action1" := JObj(map["action_text" := JStr("create_and_link_ifc(DYN_)")])])])
  }

  /** A connector gateway with one external port; the tenant id is not used. */
  function CreateGatewayBodyData(tenantId: string, gatewayName: string): (body: JVal)
    ensures ElementBody(body, Gateway)
    ensures KeysAt(body, []) == {"ne_type", "mobility", "ne_group", "ne_name", "ifc", "action"}
    ensures StrAt(body, ["ne_group"]) == Some("connector") && StrAt(body, ["ne_name"]) == Some(gatewayName)
    ensures KeysAt(body, ["ifc"]) == {"ExtPort"} && KeysAt(body, ["ifc", "ExtPort"]) == {"ifc_type"}
    ensures CreateAndLinkOnly(body)
  {
    JObj(map[
      "ne_type" := JStr("gateway"),
      "mobility" := JStr("true"),
      "ne_group" := JStr("connector"),
      "ne_name" := JStr(gatewayName),
      "ifc" := JObj(map["ExtPort" := JObj(map["ifc_type" := JStr("static")])]),
      "action" := JObj(map["action1" := JObj(map["action_text" := JStr("create_and_link_ifc(DYN_)")])])])
  }
}
