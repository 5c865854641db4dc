/**
 * Allocation pools for a new subnet (`_allocate_pools_for_subnet`) and the
 * default gateway that `create_subnet` chooses before computing them.
 * Addresses are integers; a network is its first (network) and last
 * (broadcast) address, as netaddr's `IPNetwork.first` and `.last` give them.
 */
module SubnetPools {
  import opened Util
  import opened Json

  datatype Network = Network(first: int, last: int)

  predicate ValidNetwork(net: Network) { net.first <= net.last }

  /** An allocation pool `{start, end}`; both ends are inclusive. */
  datatype Pool = Pool(start: int, end: int)

  predicate InPool(p: Pool, a: int) { p.start <= a <= p.end }

  predicate Pooled(pools: seq<Pool>, a: int)
  {
    exists i :: 0 <= i < |pools| && InPool(pools[i], a)
  }

  /** Pools in increasing order with a gap between neighbours, so no address is in two of them. */
  predicate OrderedDisjoint(pools: seq<Pool>)
  {
    forall i, j :: 0 <= i < j < |pools| ==> pools[i].end < pools[j].start
  }

  /** Every pool starts at `lo` or later. */
  predicate StartFrom(pools: seq<Pool>, lo: int)
  {
    forall i :: 0 <= i < |pools| ==> pools[i].start >= lo
  }

  function Max(a: int, b: int): int { if a >= b then a else b }

  // The locals of `_allocate_pools_for_subnet`, one function each.

  /** `subnet['gateway_ip'] or net.last`: the gateway, or the broadcast address when there is none. */
  function GatewayOrLast(net: Network, gatewayIp: Option<int>): int
  {
    if gatewayIp.Some? then gatewayIp.value else net.last
  }

  /** True when the gateway takes `first + 1`, the address the DHCP server would otherwise get. */
  predicate DhcpCollision(net: Network, gatewayIp: Option<int>)
  {
    GatewayOrLast(net, gatewayIp) == net.first + 1
  }

  /** The address left to the DHCP server: `first + 1`, or `first + 2` when the gateway took `first + 1`. */
  function DhcpServerIp(net: Network, gatewayIp: Option<int>): int
  {
    if DhcpCollision(net, gatewayIp) then net.first + 2 else net.first + 1
  }

  function FirstIp(net: Network, gatewayIp: Option<int>): int
  {
    if DhcpCollision(net, gatewayIp) then net.first + 3 else net.first + 2
  }

  function Boundary(net: Network, gatewayIp: Option<int>): int
  {
    if DhcpCollision(net, gatewayIp) then net.first + 2 else GatewayOrLast(net, gatewayIp)
  }

  function LastIp(net: Network): int { net.last - 1 }

  /** The boundary clamped into `[first, last]`. */
  function SplitIp(net: Network, gatewayIp: Option<int>): int
  {
    Min(Max(Boundary(net, gatewayIp), net.first), net.last)
  }

  /**
   * `_allocate_pools_for_subnet` as written: at most two pools around the split
   * point, the lower one from `FirstIp`, the upper one up to `LastIp`.
   */
  function AllocatePools(net: Network, gatewayIp: Option<int>): (pools: seq<Pool>)
    ensures |pools| <= 2 && OrderedDisjoint(pools)
    ensures forall i :: 0 <= i < |pools| ==> pools[i].start <= pools[i].end <= net.last - 1
    ensures forall i :: 0 <= i < |pools| ==>
      pools[i] == Pool(FirstIp(net, gatewayIp), SplitIp(net, gatewayIp) - 1) ||
      pools[i] == Pool(SplitIp(net, gatewayIp) + 1, LastIp(net))
  {
    var firstIp, lastIp, splitIp := FirstIp(net, gatewayIp), LastIp(net), SplitIp(net, gatewayIp);
    (if splitIp > firstIp then [Pool(firstIp, splitIp - 1)] else [])
    + (if splitIp < lastIp then [Pool(splitIp + 1, lastIp)] else [])
  }

  /**
   * Exactly the addresses the pools of the source cover: everything up to
   * `LastIp` except the split point, starting at `FirstIp` or just after the
   * split point, whichever is lower.
   */
  lemma PooledExactly(net: Network, gatewayIp: Option<int>, a: int)
    ensures Pooled(AllocatePools(net, gatewayIp), a) <==>
      Min(FirstIp(net, gatewayIp), SplitIp(net, gatewayIp) + 1) <= a <= LastIp(net) && a != SplitIp(net, gatewayIp)
  {
    var pools := AllocatePools(net, gatewayIp);
    var firstIp, lastIp, splitIp := FirstIp(net, gatewayIp), LastIp(net), SplitIp(net, gatewayIp);
    if Min(firstIp, splitIp + 1) <= a <= lastIp && a != splitIp {
      if a < splitIp {
        assert InPool(pools[0], a);
      } else {
        assert InPool(pools[|pools| - 1], a);
      }
    }
  }

  /** Every address of `[FirstIp, LastIp]` other than the split point is in exactly one pool. */
  lemma Coverage(net: Network, gatewayIp: Option<int>, a: int)
    requires FirstIp(net, gatewayIp) <= a <= LastIp(net) && a != SplitIp(net, gatewayIp)
    ensures Pooled(AllocatePools(net, gatewayIp), a)
    ensures forall i, j :: 0 <= i < j < |AllocatePools(net, gatewayIp)| ==>
      !(InPool(AllocatePools(net, gatewayIp)[i], a) && InPool(AllocatePools(net, gatewayIp)[j], a))
  {
    PooledExactly(net, gatewayIp, a);
  }

  /** Neither the network address, nor the broadcast address, nor the split point is ever pooled. */
  lemma ReservedNeverPooled(net: Network, gatewayIp: Option<int>)
    requires ValidNetwork(net)
    ensures !Pooled(AllocatePools(net, gatewayIp), net.first)
    ensures !Pooled(AllocatePools(net, gatewayIp), net.last)
    ensures !Pooled(AllocatePools(net, gatewayIp), SplitIp(net, gatewayIp))
  {
    PooledExactly(net, gatewayIp, net.first);
    PooledExactly(net, gatewayIp, net.last);
    PooledExactly(net, gatewayIp, SplitIp(net, gatewayIp));
  }

  /** A given gateway is never handed out from a pool, wherever it lies. */
  lemma GatewayNeverPooled(net: Network, gateway: int)
    requires ValidNetwork(net)
    ensures !Pooled(AllocatePools(net, Some(gateway)), gateway)
  {
    PooledExactly(net, Some(gateway), gateway);
  }

  /** When the gateway takes `first + 1`, the pools start at `first + 3` or later. */
  lemma GatewayOnDhcpAddress(net: Network)
    requires ValidNetwork(net)
    ensures StartFrom(AllocatePools(net, Some(net.first + 1)), net.first + 3)
  {
    var pools := AllocatePools(net, Some(net.first + 1));
    forall i | 0 <= i < |pools| ensures pools[i].start >= net.first + 3 {
      PooledExactly(net, Some(net.first + 1), pools[i].start);
    }
  }

  /**
   * With no gateway, or a gateway above the network address, the DHCP
   * server's address is not pooled; with a gateway at `first + 2` or above,
   * neither `first` nor `first + 1` is.
   */
  lemma DhcpAddressNotPooled(net: Network, gatewayIp: Option<int>)
    requires ValidNetwork(net)
    requires gatewayIp.None? || gatewayIp.value > net.first
    ensures !Pooled(AllocatePools(net, gatewayIp), DhcpServerIp(net, gatewayIp))
    ensures gatewayIp.Some? && gatewayIp.value >= net.first + 2 ==>
      !Pooled(AllocatePools(net, gatewayIp), net.first) && !Pooled(AllocatePools(net, gatewayIp), net.first + 1)
  {
    PooledExactly(net, gatewayIp, DhcpServerIp(net, gatewayIp));
    PooledExactly(net, gatewayIp, net.first);
    PooledExactly(net, gatewayIp, net.first + 1);
  }

  /**
   * As written, a gateway at or below the network address puts the upper pool
   * at `first + 1`, the DHCP server's address, as soon as the network has
   * three or more addresses.
   */
  lemma DhcpAddressPooledBelowNetwork(net: Network, gateway: int)
    requires ValidNetwork(net) && net.last >= net.first + 2
    requires gateway <= net.first
    ensures DhcpServerIp(net, Some(gateway)) == net.first + 1
    ensures Pooled(AllocatePools(net, Some(gateway)), net.first + 1)
  {
    PooledExactly(net, Some(gateway), net.first + 1);
  }

  /** The 10.0.0.0/30 network with gateway 10.0.0.0 gets the pool 10.0.0.1 to 10.0.0.2. */
  lemma DhcpAddressPooledExample()
    ensures AllocatePools(Network(0x0A00_0000, 0x0A00_0003), Some(0x0A00_0000))
      == [Pool(0x0A00_0001, 0x0A00_0002)]
  {
  }

  /**
   * The allocation the source evidently intends: as `AllocatePools`, except
   * that the upper pool never starts below `FirstIp`, so the DHCP server's
   * address stays out of every pool.
   */
  function AllocatePoolsReservingDhcp(net: Network, gatewayIp: Option<int>): (pools: seq<Pool>)
    ensures |pools| <= 2 && OrderedDisjoint(pools)
    ensures forall i :: 0 <= i < |pools| ==> pools[i].start <= pools[i].end <= net.last - 1
  {
    var firstIp, lastIp, splitIp := FirstIp(net, gatewayIp), LastIp(net), SplitIp(net, gatewayIp);
    var upperStart := Max(splitIp + 1, firstIp);
    (if splitIp > firstIp then [Pool(firstIp, splitIp - 1)] else [])
    + (if upperStart <= lastIp then [Pool(upperStart, lastIp)] else [])
  }

  /** The corrected pools cover exactly `[FirstIp, LastIp]` without the split point. */
  lemma ReservingDhcpPooledExactly(net: Network, gatewayIp: Option<int>, a: int)
    ensures Pooled(AllocatePoolsReservingDhcp(net, gatewayIp), a) <==>
      FirstIp(net, gatewayIp) <= a <= LastIp(net) && a != SplitIp(net, gatewayIp)
  {
    var pools := AllocatePoolsReservingDhcp(net, gatewayIp);
    var firstIp, lastIp, splitIp := FirstIp(net, gatewayIp), LastIp(net), SplitIp(net, gatewayIp);
    if firstIp <= a <= lastIp && a != splitIp {
      if a < splitIp {
        assert InPool(pools[0], a);
      } else {
        assert InPool(pools[|pools| - 1], a);
      }
    }
  }

  /** In the corrected allocation the DHCP server's address is never pooled, whatever the gateway. */
  lemma ReservingDhcpKeepsDhcpAddress(net: Network, gatewayIp: Option<int>)
    ensures !Pooled(AllocatePoolsReservingDhcp(net, gatewayIp), DhcpServerIp(net, gatewayIp))
    ensures !Pooled(AllocatePoolsReservingDhcp(net, gatewayIp), net.first)
  {
    ReservingDhcpPooledExactly(net, gatewayIp, DhcpServerIp(net, gatewayIp));
    ReservingDhcpPooledExactly(net, gatewayIp, net.first);
  }

  /** The correction changes nothing unless a gateway at or below the network address is given. */
  lemma ReservingDhcpAgrees(net: Network, gatewayIp: Option<int>)
    requires ValidNetwork(net)
    requires gatewayIp.None? || gatewayIp.value > net.first
    ensures AllocatePoolsReservingDhcp(net, gatewayIp) == AllocatePools(net, gatewayIp)
  {
  }

  /** With no gateway the result is the single pool `[first + 2, last - 1]`, or nothing when that is empty. */
  lemma NoGatewayPools(net: Network)
    requires ValidNetwork(net)
    ensures AllocatePools(net, None) ==
      if net.first + 2 <= net.last - 1 then [Pool(net.first + 2, net.last - 1)] else []
  {
  }

  /** How `create_subnet` receives the gateway: not specified, explicitly none, or an address. */
  datatype GatewaySpec = GatewayNotSpecified | NoGateway | GatewayAt(ip: int)

  /** How `create_subnet` receives the allocation pools: not specified, or given. */
  datatype PoolsSpec = PoolsNotSpecified | PoolsGiven(pools: seq<Pool>)

  /** The gateway and pools a subnet is created with. */
  datatype SubnetAttrs = SubnetAttrs(gatewayIp: Option<int>, allocationPools: seq<Pool>)

  /**
   * The defaults `create_subnet` fills in before creating the subnet: an
   * unspecified gateway becomes `last - 1`; unspecified pools are allocated
   * around the (possibly defaulted) gateway.
   */
  function PrepareSubnet(net: Network, gateway: GatewaySpec, pools: PoolsSpec): (r: SubnetAttrs)
    ensures gateway.GatewayNotSpecified? ==> r.gatewayIp == Some(net.last - 1)
    ensures gateway.NoGateway? ==> r.gatewayIp == None
    ensures gateway.GatewayAt? ==> r.gatewayIp == Some(gateway.ip)
    ensures pools.PoolsGiven? ==> r.allocationPools == pools.pools
    ensures pools.PoolsNotSpecified? ==> r.allocationPools == AllocatePools(net, r.gatewayIp)
    ensures pools.PoolsNotSpecified? && ValidNetwork(net) && (r.gatewayIp.None? || r.gatewayIp.value > net.first) ==>
      !Pooled(r.allocationPools, DhcpServerIp(net, r.gatewayIp))
  {
    var gatewayIp :=
      if gateway.GatewayNotSpecified? then Some(net.last - 1)
      else if gateway.NoGateway? then None
      else Some(gateway.ip);
    var chosenPools :=
      if pools.PoolsNotSpecified? then AllocatePools(net, gatewayIp) else pools.pools;
    if ValidNetwork(net) && (gatewayIp.None? || gatewayIp.value > net.first) then
      DhcpAddressNotPooled(net, gatewayIp);
      SubnetAttrs(gatewayIp, chosenPools)
    else
      SubnetAttrs(gatewayIp, chosenPools)
  }

  /**
   * The defect of the allocation reaches `create_subnet`: an explicit gateway
   * at or below the network address, with no pools given, leaves the DHCP
   * server's address `first + 1` in a pool of the created subnet.
   */
  lemma PrepareSubnetPoolsDhcpAddress(net: Network, gateway: int)
    requires ValidNetwork(net) && net.last >= net.first + 2
    requires gateway <= net.first
    ensures Pooled(PrepareSubnet(net, GatewayAt(gateway), PoolsNotSpecified).allocationPools, net.first + 1)
  {
    DhcpAddressPooledBelowNetwork(net, gateway);
  }

  /**
   * With the gateway left to its default, the pools are at most the single
   * range `[first + 2, last - 2]`, or none when that range is empty.
   */
  lemma DefaultGatewayPools(net: Network)
    requires ValidNetwork(net)
    ensures PrepareSubnet(net, GatewayNotSpecified, PoolsNotSpecified).allocationPools ==
      if net.first + 2 <= net.last - 2 then [Pool(net.first + 2, net.last - 2)] else []
  {
  }

  // Networks derived from a 32-bit address and a prefix length.

  function Pow2(n: nat): (r: nat)
    ensures r >= 1
  {
    if n == 0 then 1 else 2 * Pow2(n - 1)
  }

  lemma {:induction false} Pow2Add(a: nat, b: nat)
    ensures Pow2(a + b) == Pow2(a) * Pow2(b)
    decreases a
  {
    if a > 0 {
      Pow2Add(a - 1, b);
    }
  }

  /** Blocks of 3 or more host bits hold at least 8 addresses, smaller ones at most 4. */
  lemma Pow2Bounds(n: nat)
    ensures n >= 3 ==> Pow2(n) >= 8
    ensures n <= 2 ==> Pow2(n) <= 4
  {
    if n >= 3 {
      Pow2Add(3, n - 3);
      assert Pow2(3) == 8;
    } else {
      assert Pow2(2) == 4;
    }
  }

  /** `netaddr.IPNetwork` of an IPv4 address and a prefix length: the block of `2^(32 - prefixLen)` addresses holding it. */
  function CidrNetwork(address: nat, prefixLen: nat): (net: Network)
    requires address < Pow2(32) && prefixLen <= 32
    ensures ValidNetwork(net)
    ensures net.first <= address <= net.last
    ensures net.last - net.first + 1 == Pow2(32 - prefixLen)
  {
    var size := Pow2(32 - prefixLen);
    var first := address - address % size;
    Network(first, first + size - 1)
  }

  /**
   * With the default gateway, a /30, /31 or /32 gets no pool at all, and a
   * /29 or larger gets the single pool `[first + 2, last - 2]`.
   */
  lemma DefaultGatewayPoolsByPrefix(address: nat, prefixLen: nat)
    requires address < Pow2(32) && prefixLen <= 32
    ensures var net := CidrNetwork(address, prefixLen);
      var pools := PrepareSubnet(net, GatewayNotSpecified, PoolsNotSpecified).allocationPools;
      (prefixLen >= 30 ==> pools == []) &&
      (prefixLen <= 29 ==> pools == [Pool(net.first + 2, net.last - 2)])
  {
    var net := CidrNetwork(address, prefixLen);
    DefaultGatewayPools(net);
    Pow2Bounds(32 - prefixLen);
  }

  /** 10.0.0.0/24 with nothing specified: gateway 10.0.0.254, one pool 10.0.0.2 to 10.0.0.253. */
  lemma DefaultSlash24Example()
    ensures 0x0A00_0000 < Pow2(32)
    ensures PrepareSubnet(CidrNetwork(0x0A00_0000, 24), GatewayNotSpecified, PoolsNotSpecified)
      == SubnetAttrs(Some(0x0A00_00FE), [Pool(0x0A00_0002, 0x0A00_00FD)])
  {
    Pow2Values();
    var net := CidrNetwork(0x0A00_0000, 24);
    assert net == Network(0x0A00_0000, 0x0A00_00FF);
    DefaultGatewayPools(net);
  }

  /** The block sizes the example needs: a /24 and the whole IPv4 space. */
  lemma Pow2Values()
    ensures Pow2(8) == 256 && Pow2(32) == 0x1_0000_0000
  {
    assert Pow2(8) == 256;
    Pow2Add(8, 8);
    Pow2Add(16, 16);
  }
}
