/**
 * The port decoration `_port_viftype_binding`, which the plugin applies to
 * every port dict it returns: it writes the VIF type and the capabilities
 * into the dict in place and hands the same dict back.
 */
module PortBinding {
  import opened Json

  /** The extension aliases the plugin advertises. */
  const SupportedExtensionAliases: seq<string> :=
    ["binding", "external-net", "provider", "quotas", "router", "security-group"]

  // Keys and values of the port-binding extension.
  const VifType := "binding:vif_type"
  const VifTypeOther := "other"
  const Capabilities := "binding:capabilities"
  const CapPortFilter := "port_filter"

  /** A port dict, updated in place. */
  class Port {
    var attrs: map<string, JVal>

    constructor (attrs: map<string, JVal>)
      ensures this.attrs == attrs
    {
      this.attrs := attrs;
    }
  }

  /**
   * Sets the VIF type to "other" and the port-filter capability to whether
   * "security-group" is among the supported aliases, which it is; every other
   * key keeps its value, and the same port object is returned.
   */
  method PortViftypeBinding(port: Port) returns (r: Port)
    modifies port
    ensures r == port
    ensures port.attrs.Keys == old(port.attrs.Keys) + {VifType, Capabilities}
    ensures port.attrs[VifType] == JStr(VifTypeOther)
    ensures port.attrs[Capabilities] == JObj(map[CapPortFilter := JBool(true)])
    ensures forall k :: k in old(port.attrs) && k != VifType && k != Capabilities ==>
      port.attrs[k] == old(port.attrs[k])
  {
    port.attrs := port.attrs[VifType := JStr(VifTypeOther)];
    var portFilter := "security-group" in SupportedExtensionAliases;
    port.attrs := port.attrs[Capabilities := JObj(map[CapPortFilter := JBool(portFilter)])];
    r := port;
  }
}
