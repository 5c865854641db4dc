# PLUMgrid plugin for Quantum: subnet pools, port binding and Director request builders

This project models the two self-contained parts of the PLUMgrid Quantum plugin in Dafny and proves properties about them.

- **Subnet allocation pools.** `QuantumPluginPLUMgridV2._allocate_pools_for_subnet` splits a subnet's addresses into at most two allocation pools around the gateway. It keeps out the network address, the broadcast address and the gateway. It also keeps out the address of the DHCP server, except when a gateway at or below the network address is given (see Findings). That address is `first + 1`, or `first + 2` when the gateway takes `first + 1`. Before the pools are computed, `create_subnet` defaults a missing gateway to the next-to-last address. Addresses are integers. A network is its first and last address, as netaddr gives them. `CidrNetwork` derives that pair from a 32-bit address and a prefix length.
- **Port binding.** `_port_viftype_binding` writes the VIF type and the port-filter capability into a port dict in place. It returns the same dict.
- **Director request builders.** `DataDirectorPLUMgrid` holds pure functions that build controller URL paths and request bodies from tenant, network, element and interface identifiers. Identifiers are cut to six characters with Python's `[:6]`. Bodies are modelled as a small JSON datatype (`Json.JVal`) whose key sets are stated at every level and read back with `Json.At`/`Json.StrAt`. The router's MAC address is generated from three random bytes, which are parameters here. It is rendered as six lowercase `%02x` pairs joined by `:` and parsed back (`MacAddress.ParseHexPairs`) to show that the rendering loses nothing.

Modules: `Util` (`Option`, `Min`, Python prefix slicing), `Json` (body values, path lookup), `SubnetPools`, `PortBinding`, `MacAddress`, `DataDirector`.

Where the code and the design description differ, the model follows the code:
- The pool split uses netaddr's `first`, which is the network address, not the first usable address. The gateway is clamped into `[first, last]`.
- Only the Director naming dialect exists in the builder class. No dialect switch is modelled.

## Model

| member | source | states |
|---|---|---|
| `SubnetPools.AllocatePools` | quantum/plugins/plumgrid/plumgrid_nos_plugin/plumgrid_plugin.py:797-829 | at most two pools, ordered and disjoint; every pool has start <= end <= broadcast - 1; each pool is either `[first_ip, split-1]` or `[split+1, last_ip]` |
| `SubnetPools.PooledExactly` | quantum/plugins/plumgrid/plumgrid_nos_plugin/plumgrid_plugin.py:811-826 | an address is pooled iff it lies in `[min(first_ip, split+1), last_ip]` and is not the split point (exact characterisation of the code as written) |
| `SubnetPools.Coverage` | quantum/plugins/plumgrid/plumgrid_nos_plugin/plumgrid_plugin.py:813-826 | every address of `[first_ip, last_ip]` other than the split point is in exactly one pool |
| `SubnetPools.ReservedNeverPooled` | quantum/plugins/plumgrid/plumgrid_nos_plugin/plumgrid_plugin.py:817-826 | the network address, the broadcast address and the clamped split point are never in a pool |
| `SubnetPools.GatewayNeverPooled` | quantum/plugins/plumgrid/plumgrid_nos_plugin/plumgrid_plugin.py:810-826 | a given gateway is in no pool, inside or outside the network |
| `SubnetPools.GatewayOnDhcpAddress` | quantum/plugins/plumgrid/plumgrid_nos_plugin/plumgrid_plugin.py:811-816 | with the gateway at `first + 1`, every pool starts at `first + 3` or later |
| `SubnetPools.DhcpAddressNotPooled` | quantum/plugins/plumgrid/plumgrid_nos_plugin/plumgrid_plugin.py:811-826 | with no gateway or a gateway above the network address, the DHCP server's address is not pooled; with a gateway at `first + 2` or above, neither `first` nor `first + 1` is |
| `SubnetPools.DhcpAddressPooledBelowNetwork` | quantum/plugins/plumgrid/plumgrid_nos_plugin/plumgrid_plugin.py:824-826 | as written, a gateway at or below the network address of a network of 3+ addresses puts the DHCP server's address `first + 1` into the upper pool |
| `SubnetPools.DhcpAddressPooledExample` | quantum/plugins/plumgrid/plumgrid_nos_plugin/plumgrid_plugin.py:824-826 | 10.0.0.0/30 with gateway 10.0.0.0 yields the pool 10.0.0.1-10.0.0.2 |
| `SubnetPools.AllocatePoolsReservingDhcp` | quantum/plugins/plumgrid/plumgrid_nos_plugin/plumgrid_plugin.py:813-826 | corrected allocation: at most two ordered, disjoint pools, each with start <= end <= broadcast - 1 |
| `SubnetPools.ReservingDhcpPooledExactly` | quantum/plugins/plumgrid/plumgrid_nos_plugin/plumgrid_plugin.py:813-826 | corrected pools cover exactly `[first_ip, last_ip]` minus the split point |
| `SubnetPools.ReservingDhcpKeepsDhcpAddress` | quantum/plugins/plumgrid/plumgrid_nos_plugin/plumgrid_plugin.py:811-816 | in the corrected allocation neither the DHCP server's address nor the network address is pooled, for every gateway |
| `SubnetPools.ReservingDhcpAgrees` | quantum/plugins/plumgrid/plumgrid_nos_plugin/plumgrid_plugin.py:810-826 | the correction equals the source's allocation unless a gateway at or below the network address is given |
| `SubnetPools.NoGatewayPools` | quantum/plugins/plumgrid/plumgrid_nos_plugin/plumgrid_plugin.py:810-826 | with no gateway the result is the single pool `[first+2, last-1]` when non-empty, otherwise no pool |
| `SubnetPools.PrepareSubnet` | quantum/plugins/plumgrid/plumgrid_nos_plugin/plumgrid_plugin.py:354-363 | an unspecified gateway becomes `last - 1`, an explicit one (or none) is kept; given pools are kept; unspecified pools are the source's allocation around that gateway, which keeps the DHCP server's address out of every pool when there is no gateway or the gateway lies above the network address |
| `SubnetPools.PrepareSubnetPoolsDhcpAddress` | quantum/plugins/plumgrid/plumgrid_nos_plugin/plumgrid_plugin.py:354-363 | the defect reaches `create_subnet`: an explicit gateway at or below the network address, with no pools given, leaves the DHCP server's address `first + 1` in a pool |
| `SubnetPools.DefaultGatewayPools` | quantum/plugins/plumgrid/plumgrid_nos_plugin/plumgrid_plugin.py:354-363 | with the default gateway the pools are `[first+2, last-2]` when non-empty, otherwise none |
| `SubnetPools.CidrNetwork` | quantum/plugins/plumgrid/plumgrid_nos_plugin/plumgrid_plugin.py:352 | an IPv4 address and prefix give a network of `2^(32-prefix)` addresses containing the address |
| `SubnetPools.DefaultGatewayPoolsByPrefix` | quantum/plugins/plumgrid/plumgrid_nos_plugin/plumgrid_plugin.py:354-363 | with the default gateway a /30, /31 or /32 gets no pool, a /29 or larger exactly `[first+2, last-2]` |
| `SubnetPools.DefaultSlash24Example` | quantum/plugins/plumgrid/plumgrid_nos_plugin/plumgrid_plugin.py:354-363 | 10.0.0.0/24 with nothing specified gets gateway 10.0.0.254 and the pool 10.0.0.2-10.0.0.253 |
| `PortBinding.PortViftypeBinding` | quantum/plugins/plumgrid/plumgrid_nos_plugin/plumgrid_plugin.py:776-781 | sets `binding:vif_type` to "other" and `binding:capabilities` to `{port_filter: true}` (true because "security-group" is an advertised alias, lines 65-66); adds exactly those keys, leaves every other key unchanged, returns the same port |
| `MacAddress.HexDigit` | quantum/plugins/plumgrid/plumgrid_nos_plugin/plumgrid_nos_snippets.py:179 | a digit renders as a lowercase hex character that reads back as the digit |
| `MacAddress.Hex2` | quantum/plugins/plumgrid/plumgrid_nos_plugin/plumgrid_nos_snippets.py:179 | `%02x` of a byte is two lowercase hex digits whose value is the byte |
| `MacAddress.JoinHex` | quantum/plugins/plumgrid/plumgrid_nos_plugin/plumgrid_nos_snippets.py:179 | the joined rendering of n bytes has length 3n-1, a ':' exactly at positions 2, 5, 8, ..., and hex digits elsewhere |
| `MacAddress.ParseJoinHex` | quantum/plugins/plumgrid/plumgrid_nos_plugin/plumgrid_nos_snippets.py:179 | parsing the joined rendering gives back the bytes |
| `MacAddress.CreateMac` | quantum/plugins/plumgrid/plumgrid_nos_plugin/plumgrid_nos_snippets.py:169-180 | 17 characters of colon-separated lowercase hex, starting "00:24:81", parsing to the bytes 00, 24, 81 and the three random bytes (fourth at most 0x7f) |
| `Util.Take` | quantum/plugins/plumgrid/plumgrid_nos_plugin/plumgrid_nos_snippets.py:102 | Python's `s[:n]`: a prefix of `s` of length `min(|s|, n)` |
| `DataDirector.CreateCdbDomain` | quantum/plugins/plumgrid/plumgrid_nos_plugin/plumgrid_nos_snippets.py:45-46 | the CDB base URL followed by exactly the tenant id |
| `DataDirector.CreateCdbTopology` | quantum/plugins/plumgrid/plumgrid_nos_plugin/plumgrid_nos_snippets.py:48-49 | the tenant's domain URL is a prefix of the topology URL, followed by "/domain/quantum-based" |
| `DataDirector.CreateRuleUrl` | quantum/plugins/plumgrid/plumgrid_nos_plugin/plumgrid_nos_snippets.py:51-52 | the logical rule URL is the rule base, then the tenant id, '_', and its first six characters |
| `DataDirector.RuleUrlInjective` | quantum/plugins/plumgrid/plumgrid_nos_plugin/plumgrid_nos_snippets.py:51-52 | distinct tenants get distinct logical rule URLs |
| `DataDirector.CreateRuleCmUrl` | quantum/plugins/plumgrid/plumgrid_nos_plugin/plumgrid_nos_snippets.py:54-55 | the connectivity rule URL is its base and the tenant id's first six characters, at most six past the base |
| `DataDirector.RuleCmUrlShared` | quantum/plugins/plumgrid/plumgrid_nos_plugin/plumgrid_nos_snippets.py:54-55 | two tenants share a connectivity rule URL iff their ids share the six-character prefix |
| `DataDirector.RuleCmUrlCollision` | quantum/plugins/plumgrid/plumgrid_nos_plugin/plumgrid_nos_snippets.py:54-55 | two distinct tenant ids that collide on that URL |
| `DataDirector.CreateNeUrl` | quantum/plugins/plumgrid/plumgrid_nos_plugin/plumgrid_nos_snippets.py:101-102 | starts with the Director domain URL; is tenant, "/ne/", element, '_' and at most six characters of the network id |
| `DataDirector.NeUrlIdentifiesPrefix` | quantum/plugins/plumgrid/plumgrid_nos_plugin/plumgrid_nos_snippets.py:101-102 | for one tenant and element, two network ids give the same URL iff they share the six-character prefix |
| `DataDirector.CreateLinkUrl` | quantum/plugins/plumgrid/plumgrid_nos_plugin/plumgrid_nos_snippets.py:104-105 | the link name after "/link/" is the six-character prefixes of both ids (the second defaulting to ""), at most twelve characters |
| `DataDirector.LinkUrlIdentifiesPrefixes` | quantum/plugins/plumgrid/plumgrid_nos_plugin/plumgrid_nos_snippets.py:104-105 | when the first id has six or more characters, the link URL determines both truncated ids, and conversely |
| `DataDirector.LinkUrlAmbiguous` | quantum/plugins/plumgrid/plumgrid_nos_plugin/plumgrid_nos_snippets.py:104-105 | with a short first id, ("ab", "c") and ("a", "bc") name the same link |
| `DataDirector.CreateRuleCmBodyData` | quantum/plugins/plumgrid/plumgrid_nos_plugin/plumgrid_nos_snippets.py:57-62 | exactly the keys criteria "pgtag1", add_context "first-level-rule", match = tenant id, domain_dest = "/connectivity/domain/" + tenant |
| `DataDirector.CreateRuleBodyData` | quantum/plugins/plumgrid/plumgrid_nos_plugin/plumgrid_nos_snippets.py:64-67 | exactly domain_dest = "/connectivity/domain/" + tenant and pgtag1 = tenant id |
| `DataDirector.TenantRulesAgree` | quantum/plugins/plumgrid/plumgrid_nos_plugin/plumgrid_nos_snippets.py:57-67 | both tenant rules route to the same domain, match the same tenant tag, and that domain is the one the element URLs are built under |
| `DataDirector.NetworkLevelRuleBodyData` | quantum/plugins/plumgrid/plumgrid_nos_plugin/plumgrid_nos_snippets.py:69-75 | ne_dest is the element's action1 under the tenant domain; rule "1" is second-level with criteria and match passed through |
| `DataDirector.NetworkRuleTargetsNe` | quantum/plugins/plumgrid/plumgrid_nos_plugin/plumgrid_nos_snippets.py:69-75 | for the element named as in the element URL, "/0" + ne_dest is that element's URL + "/action/action1" |
| `DataDirector.NetworkRuleDefaultMatch` | quantum/plugins/plumgrid/plumgrid_nos_plugin/plumgrid_nos_snippets.py:69-70 | the match defaults to the text "None" |
| `DataDirector.CreateDomainBodyData` | quantum/plugins/plumgrid/plumgrid_nos_plugin/plumgrid_nos_snippets.py:77-80 | exactly container_group = the id given and topology_name "quantum-based" |
| `DataDirector.CreateTenantDomainBodyData` | quantum/plugins/plumgrid/plumgrid_nos_plugin/plumgrid_nos_snippets.py:82-91 | one container keyed by the tenant id: exactly the keys enable, qos "9", Gold type, its property text, a DHCP service object holding only its type, empty domains and rules |
| `DataDirector.UpdateTenantDomainBodyData` | quantum/plugins/plumgrid/plumgrid_nos_plugin/plumgrid_nos_snippets.py:93-98 | service "GW_NAT_1" with the two pool addresses passed through unchanged |
| `DataDirector.CreateLinkBodyData` | quantum/plugins/plumgrid/plumgrid_nos_plugin/plumgrid_nos_snippets.py:107-112 | a static link whose attachments are "/ne/<ne>/ifc/<ifc[:6]>", the interfaces defaulting to "1" |
| `DataDirector.CreateGenLinkBodyData` | quantum/plugins/plumgrid/plumgrid_nos_plugin/plumgrid_nos_snippets.py:114-119 | a static link whose attachments carry the interface names whole |
| `DataDirector.LinkBodyTruncatesGenLink` | quantum/plugins/plumgrid/plumgrid_nos_plugin/plumgrid_nos_snippets.py:107-119 | the truncating link body is the general one on truncated names; the two agree on names of six characters or fewer; the default is interface "1" on both ends |
| `DataDirector.CreateBridgeBodyData` | quantum/plugins/plumgrid/plumgrid_nos_plugin/plumgrid_nos_snippets.py:121-125 | exactly the seven keys of the literal: a mobile bridge with one interface "1" holding only its static type, a single action holding only the dynamic-link text, in the tenant's container and topology |
| `DataDirector.CreateDhcpBodyData` | quantum/plugins/plumgrid/plumgrid_nos_plugin/plumgrid_nos_snippets.py:127-135 | exactly the four keys of the literal: a mobile DHCP element with one static interface "1" holding exactly the six addressing keys; all seven arguments read back unchanged |
| `DataDirector.CreateRouterBodyData` | quantum/plugins/plumgrid/plumgrid_nos_plugin/plumgrid_nos_snippets.py:137-142 | exactly the seven keys of the literal: a mobile router with no interfaces and a single dynamic-link action, in the tenant's container, whose `config["0"]` holds only `user_mac`, the generated MAC |
| `DataDirector.CreateNatBodyData` | quantum/plugins/plumgrid/plumgrid_nos_plugin/plumgrid_nos_snippets.py:144-152 | exactly the six keys of the literal: a mobile NAT with inside/outside interfaces holding only their static type and own zone, an outbound config holding only allow_all and allow_icmp, both true |
| `DataDirector.CreateWireBodyData` | quantum/plugins/plumgrid/plumgrid_nos_plugin/plumgrid_nos_snippets.py:154-159 | exactly the six keys of the literal: a connector wire with one ingress interface holding only its static type and context "IN", a single dynamic-link action |
| `DataDirector.CreateGatewayBodyData` | quantum/plugins/plumgrid/plumgrid_nos_plugin/plumgrid_nos_snippets.py:161-167 | exactly the six keys of the literal: a connector gateway with one external port holding only its static type, a single dynamic-link action |

## Left out

- The provisioning orchestration (tenant bootstrap, link ordering, the REST calls) lives in the `plumlib` driver, which the plugin loads by name. That driver is not part of this model.
- The CRUD methods of the plugin class are not modelled. They are database-mixin calls, session transactions, the process-wide external lock and calls into the driver.
- Configuration registration and driver loading are not modelled, because they are global framework state.
- Security-group validation is not modelled. Its behaviour lives in the framework mixins.
- `_network_admin_state` is not modelled. It only logs and returns its input.
- The REST connection clients are not modelled. They are HTTP I/O only.
- netaddr is not modelled. This covers CIDR parsing, IPv6, and rendering addresses with `str(IPAddress(...))`. Pools hold integer addresses.
- The `random` module in `_create_mac` is replaced by three byte parameters in the ranges it draws from.
- Logging throughout is left out.
- `create_subnet` is modelled only for its gateway and pool defaults. The database write and the driver call that follow are left out.
- The builders accept any Python value. The model takes strings, and `TRUE_FLAG` becomes `JBool(true)`. The class constants `BASE`, `TENANT_Director_URL` and `PEM_MASTER` are not used by any builder and are not declared.
- `PortBinding.PortViftypeBinding`: the unused `context` argument is dropped. The port-binding key names come from the framework's port-binding extension, which is not shown.
- SubnetPools.CidrNetwork: does not state that the first address is a multiple of the block size (the netmask alignment). Only the block's size and that it contains the address are proved.

## Findings

| source | as written | input that shows it | evidently intended | confidence | as-written member | corrected member |
|---|---|---|---|---|---|---|
| quantum/plugins/plumgrid/plumgrid_nos_plugin/plumgrid_plugin.py:824-826 | the upper pool starts at `split_ip + 1` even when that is below `first_ip` | cidr 10.0.0.0/30 with gateway 10.0.0.0: split is 10.0.0.0 and the pool 10.0.0.1-10.0.0.2 contains 10.0.0.1, the address reserved for the DHCP server | the upper pool starts no lower than `first_ip`, keeping the DHCP server's address out of every pool | medium, not executed | SubnetPools.DhcpAddressPooledBelowNetwork | SubnetPools.AllocatePoolsReservingDhcp |

`SubnetPools.PrepareSubnet` keeps the allocation as written, so that it computes what `create_subnet` stores; `SubnetPools.PrepareSubnetPoolsDhcpAddress` shows the defect there. The corrected allocation stands beside it, and `SubnetPools.ReservingDhcpAgrees` states that the two differ only when a gateway at or below the network address is given.
