/** The pool checks that allocation relies on: internal/config/site_validate.go, with the parts of package net. */
module Pools {
  import opened Prelude
  import opened Addresses
  import opened Arithmetic

  type Byte = b: int | 0 <= b < 256

  /** Big-endian value. */
  function Value(bytes: seq<Byte>): nat {
    if |bytes| == 0 then 0 else Value(bytes[..|bytes| - 1]) * 256 + bytes[|bytes| - 1]
  }

  /** A parsed host: IPv4 text, IPv4 in IPv6 form, or IPv6. */
  datatype Host = Host4(bytes: seq<Byte>) | Mapped(bytes: seq<Byte>) | Host6(bytes: seq<Byte>)

  const MAPPED_PREFIX: seq<Byte> := [0, 0, 0, 0, 0, 0, 0, 0, 0, 0, 0xff, 0xff]

  predicate IsHost(h: Host) {
    if h.Host6? then |h.bytes| == 16 && h.bytes[..12] != MAPPED_PREFIX else |h.bytes| == 4
  }

  /** net.IP has one 16-byte form for an IPv4 address however it was written. */
  function To16(h: Host): (bytes: seq<Byte>)
    requires IsHost(h)
    ensures |bytes| == 16
  {
    if h.Host6? then h.bytes else MAPPED_PREFIX + h.bytes
  }

  function To4(ip: seq<Byte>): Option<seq<Byte>>
    requires |ip| == 16
  {
    if ip[..12] == MAPPED_PREFIX then Some(ip[12..]) else None
  }

  /** The same text read by netip.ParseAddr. */
  function ToAddr(h: Host): (a: Addr)
    requires IsHost(h)
  {
    match h
    case Host4(bytes) => Addr4(Value(bytes))
    case Mapped(bytes) => Addr6(0xFFFF_0000_0000 + Value(bytes))
    case Host6(bytes) => Addr6(Value(bytes))
  }

  /** net.IPNet: a network number of 4 or 16 bytes and the number of leading ones of its mask. */
  datatype Subnet = Subnet(network: seq<Byte>, ones: nat)

  predicate IsSubnet(s: Subnet) {
    (|s.network| == 4 || |s.network| == 16) && s.ones <= 8 * |s.network|
  }

  /** How many leading ones the mask has in byte `i`. */
  function OnesIn(ones: nat, i: nat): (k: nat)
    ensures k <= 8
  {
    if ones <= 8 * i then 0 else if ones >= 8 * i + 8 then 8 else ones - 8 * i
  }

  /** x & mask == y & mask, for a mask of `k` leading ones: the two agree but for the last 8 - k bits. */
  predicate SameBits(x: Byte, y: Byte, k: nat)
    requires k <= 8
  {
    Shift(x, 8 - k) == Shift(y, 8 - k)
  }

  /** Equal under the mask, byte by byte. */
  predicate SameUnderMask(x: seq<Byte>, y: seq<Byte>, ones: nat)
    requires |x| == |y|
  {
    forall i :: 0 <= i < |x| ==> SameBits(x[i], y[i], OnesIn(ones, i))
  }

  /** IPNet.Contains: an IPv4 address is taken to four bytes first, and then the lengths must agree. */
  predicate NetworkContains(s: Subnet, ip: seq<Byte>)
    requires IsSubnet(s) && |ip| == 16
  {
    var x := if To4(ip).Some? then To4(ip).value else ip;
    |x| == |s.network| && SameUnderMask(s.network, x, s.ones)
  }

  /** bytesCompareIP: the first byte that differs decides. */
  method CompareIps(left: seq<Byte>, right: seq<Byte>) returns (order: int)
    requires |left| == |right| == 16
    ensures order == (if Value(left) < Value(right) then -1 else if Value(left) > Value(right) then 1 else 0)
  {
    for i := 0 to |left|
      invariant left[..i] == right[..i]
    {
      if left[i] < right[i] {
        FirstDifferenceDecides(left, right, i);
        return -1;
      }
      if left[i] > right[i] {
        FirstDifferenceDecides(right, left, i);
        return 1;
      }
      assert left[..i + 1] == left[..i] + [left[i]] && right[..i + 1] == right[..i] + [right[i]];
    }
    assert left == left[..|left|] && right == right[..|right|];
    order := 0;
  }

  lemma FirstDifferenceDecides(left: seq<Byte>, right: seq<Byte>, i: nat)
    requires |left| == |right| && i < |left| && left[..i] == right[..i] && left[i] < right[i]
    ensures Value(left) < Value(right)
    decreases |left|
  {
    var n := |left| - 1;
    if i < n {
      assert left[..n][..i] == left[..i] && right[..n][..i] == right[..i];
      FirstDifferenceDecides(left[..n], right[..n], i);
    }
  }

  // ----- the configuration

  datatype PoolConfig = PoolConfig(name: string, subnet: Option<Subnet>, first: Option<Host>, last: Option<Host>,
                                   gateway: Option<Host>, dns: seq<Option<Host>>, vlan: int, keaSubnet: int)

  predicate IsConfig(p: PoolConfig) {
    && (p.subnet.Some? ==> IsSubnet(p.subnet.value))
    && (p.first.Some? ==> IsHost(p.first.value)) && (p.last.Some? ==> IsHost(p.last.value))
    && (p.gateway.Some? ==> IsHost(p.gateway.value))
  }

  /** strings.TrimSpace(name) == "" */
  predicate Blank(name: string) {
    forall c <- name :: c in " \t\n\r"
  }

  predicate HostInside(subnet: Subnet, host: Option<Host>)
    requires IsSubnet(subnet) && (host.Some? ==> IsHost(host.value))
  {
    host.Some? && NetworkContains(subnet, To16(host.value))
  }

  /** What is required of one pool by itself. */
  predicate Acceptable(p: PoolConfig)
    requires IsConfig(p)
  {
    && !Blank(p.name) && p.subnet.Some?
    && HostInside(p.subnet.value, p.first) && HostInside(p.subnet.value, p.last) && HostInside(p.subnet.value, p.gateway)
    && Value(To16(p.first.value)) <= Value(To16(p.last.value))
    && (forall d <- p.dns :: d.Some?) && 0 <= p.vlan <= 4094 && p.keaSubnet > 0
  }

  datatype Problem = NameRequired(pool: nat) | DuplicateName(pool: nat) | BadSubnet(pool: nat) | BadFirst(pool: nat)
                   | BadLast(pool: nat) | BadGateway(pool: nat) | NotInOrder(pool: nat) | BadDns(pool: nat)
                   | BadVlan(pool: nat) | BadKeaSubnet(pool: nat) | DuplicateKeaSubnet(pool: nat)

  /** The three hosts of a pool against its subnet, and their order. */
  method CheckHosts(index: nat, p: PoolConfig) returns (problems: seq<Problem>)
    requires IsConfig(p) && p.subnet.Some?
    ensures problems == [] <==>
              && HostInside(p.subnet.value, p.first) && HostInside(p.subnet.value, p.last)
              && HostInside(p.subnet.value, p.gateway)
              && Value(To16(p.first.value)) <= Value(To16(p.last.value))
    ensures BadFirst(index) in problems <==> p.first.None? || !NetworkContains(p.subnet.value, To16(p.first.value))
    ensures BadLast(index) in problems <==> p.last.None? || !NetworkContains(p.subnet.value, To16(p.last.value))
    ensures BadGateway(index) in problems <==> p.gateway.None? || !NetworkContains(p.subnet.value, To16(p.gateway.value))
    ensures NotInOrder(index) in problems <==>
              p.first.Some? && p.last.Some? && Value(To16(p.first.value)) > Value(To16(p.last.value))
  {
    var subnet := p.subnet.value;
    var disordered := false;
    if p.first.Some? && p.last.Some? {
      var order := CompareIps(To16(p.first.value), To16(p.last.value));
      disordered := order > 0;
    }
    problems := ReportHosts(index, HostInside(subnet, p.first), HostInside(subnet, p.last), HostInside(subnet, p.gateway),
                            disordered);
  }

  method ReportHosts(index: nat, first: bool, last: bool, gateway: bool, disordered: bool) returns (problems: seq<Problem>)
    ensures problems == [] <==> first && last && gateway && !disordered
    ensures BadFirst(index) in problems <==> !first
    ensures BadLast(index) in problems <==> !last
    ensures BadGateway(index) in problems <==> !gateway
    ensures NotInOrder(index) in problems <==> disordered
  {
    problems := [];
    if !first {
      problems := problems + [BadFirst(index)];
    }
    if !last {
      problems := problems + [BadLast(index)];
    }
    if !gateway {
      problems := problems + [BadGateway(index)];
    }
    if disordered {
      problems := problems + [NotInOrder(index)];
    }
  }

  /** The name servers and the VLAN. */
  method CheckNetwork(index: nat, dns: seq<Option<Host>>, vlan: int) returns (problems: seq<Problem>)
    ensures problems == [] <==> (forall d <- dns :: d.Some?) && 0 <= vlan <= 4094
    ensures BadDns(index) in problems <==> !forall i :: 0 <= i < |dns| ==> dns[i].Some?
    ensures BadVlan(index) in problems <==> vlan < 0 || vlan > 4094
  {
    problems := [];
    for i := 0 to |dns|
      invariant problems == [] <==> forall j :: 0 <= j < i ==> dns[j].Some?
      invariant forall k :: 0 <= k < |problems| ==> problems[k] == BadDns(index)
    {
      if dns[i].None? {
        problems := problems + [BadDns(index)];
      }
    }
    assert problems != [] ==> problems[0] == BadDns(index);
    if vlan < 0 || vlan > 4094 {
      problems := problems + [BadVlan(index)];
    }
  }

  /** The pool in which each name, or each Kea subnet, was first seen. */
  predicate Tracks<T>(values: seq<T>, n: nat, seen: map<T, nat>)
    requires n <= |values|
  {
    && (forall i :: 0 <= i < n ==> values[i] in seen)
    && (forall v <- seen :: seen[v] < n && values[seen[v]] == v)
  }

  predicate Unrepeated<T(==)>(values: seq<T>, n: nat)
    requires n <= |values|
  {
    forall i, j :: 0 <= i < j < n ==> values[i] != values[j]
  }

  lemma OneMore<T>(values: seq<T>, n: nat, seen: map<T, nat>)
    requires n < |values| && Tracks(values, n, seen) && Unrepeated(values, n)
    ensures Unrepeated(values, n + 1) <==> values[n] !in seen
    ensures values[n] !in seen ==> Tracks(values, n + 1, seen[values[n] := n])
  {
  }

  function NamesOf(pools: seq<PoolConfig>): seq<string> {
    seq(|pools|, i requires 0 <= i < |pools| => pools[i].name)
  }

  function KeaSubnetsOf(pools: seq<PoolConfig>): seq<int> {
    seq(|pools|, i requires 0 <= i < |pools| => pools[i].keaSubnet)
  }

  method CheckName(index: nat, name: string, names: map<string, nat>)
    returns (problems: seq<Problem>, seen: map<string, nat>)
    ensures problems == [] <==> !Blank(name) && name !in names
    ensures problems == [] ==> seen == names[name := index]
    ensures problems == (if Blank(name) then [NameRequired(index)] else if name in names then [DuplicateName(index)] else [])
    ensures problems != [] ==> seen == names
  {
    problems, seen := [], names;
    if Blank(name) {
      problems := [NameRequired(index)];
    } else if name in names {
      problems := [DuplicateName(index)];
    } else {
      seen := names[name := index];
    }
  }

  method CheckKeaSubnet(index: nat, id: int, ids: map<int, nat>) returns (problems: seq<Problem>, seen: map<int, nat>)
    ensures problems == [] <==> id > 0 && id !in ids
    ensures problems == [] ==> seen == ids[id := index]
    ensures problems == (if id <= 0 then [BadKeaSubnet(index)] else if id in ids then [DuplicateKeaSubnet(index)] else [])
    ensures problems != [] ==> seen == ids
  {
    problems, seen := [], ids;
    if id <= 0 {
      problems := [BadKeaSubnet(index)];
    } else if id in ids {
      problems := [DuplicateKeaSubnet(index)];
    } else {
      seen := ids[id := index];
    }
  }

  /** The checks on one pool, given what was seen before it. */
  method CheckOne(index: nat, p: PoolConfig, names: map<string, nat>, keaIds: map<int, nat>)
    returns (problems: seq<Problem>, names': map<string, nat>, keaIds': map<int, nat>)
    requires IsConfig(p)
    ensures problems == [] <==> Acceptable(p) && p.name !in names && p.keaSubnet !in keaIds
    ensures problems == [] ==> names' == names[p.name := index] && keaIds' == keaIds[p.keaSubnet := index]
    ensures problems == [] ==>
              && p.subnet.Some? && p.first.Some? && p.last.Some? && p.gateway.Some?
              && NetworkContains(p.subnet.value, To16(p.first.value)) && NetworkContains(p.subnet.value, To16(p.last.value))
              && NetworkContains(p.subnet.value, To16(p.gateway.value))
              && Value(To16(p.first.value)) <= Value(To16(p.last.value))
              && (forall d <- p.dns :: d.Some?) && 0 <= p.vlan <= 4094 && p.keaSubnet > 0
  {
    keaIds' := keaIds;
    problems, names' := CheckName(index, p.name, names);
    if p.subnet.None? {
      problems := problems + [BadSubnet(index)];
      return;
    }
    var found := CheckHosts(index, p);
    problems := problems + found;
    found := CheckNetwork(index, p.dns, p.vlan);
    problems := problems + found;
    found, keaIds' := CheckKeaSubnet(index, p.keaSubnet, keaIds);
    problems := problems + found;
  }

  /** The first `n` pools are acceptable one by one and together. */
  predicate Valid(pools: seq<PoolConfig>, n: nat)
    requires n <= |pools| && forall i :: 0 <= i < |pools| ==> IsConfig(pools[i])
  {
    && (forall i :: 0 <= i < n ==> Acceptable(pools[i]))
    && Unrepeated(NamesOf(pools), n) && Unrepeated(KeaSubnetsOf(pools), n)
  }

  predicate Seen(pools: seq<PoolConfig>, n: nat, names: map<string, nat>, keaIds: map<int, nat>)
    requires n <= |pools|
  {
    Tracks(NamesOf(pools), n, names) && Tracks(KeaSubnetsOf(pools), n, keaIds)
  }

  lemma OneMorePool(pools: seq<PoolConfig>, n: nat, names: map<string, nat>, keaIds: map<int, nat>)
    requires n < |pools| && forall i :: 0 <= i < |pools| ==> IsConfig(pools[i])
    requires Valid(pools, n) && Seen(pools, n, names, keaIds)
    ensures Valid(pools, n + 1) <==> Acceptable(pools[n]) && pools[n].name !in names && pools[n].keaSubnet !in keaIds
    ensures Valid(pools, n + 1) ==> Seen(pools, n + 1, names[pools[n].name := n], keaIds[pools[n].keaSubnet := n])
  {
    OneMore(NamesOf(pools), n, names);
    OneMore(KeaSubnetsOf(pools), n, keaIds);
  }

  lemma ValidIsMonotone(pools: seq<PoolConfig>, n: nat)
    requires n < |pools| && forall i :: 0 <= i < |pools| ==> IsConfig(pools[i])
    ensures Valid(pools, n + 1) ==> Valid(pools, n)
  {
  }

  /** What a pool has to be like, one by one. */
  predicate InOrder(p: PoolConfig)
    requires IsConfig(p)
  {
    && (exists c :: c in p.name && c !in " \t\n\r")
    && p.subnet.Some? && p.first.Some? && p.last.Some? && p.gateway.Some?
    && NetworkContains(p.subnet.value, To16(p.first.value)) && NetworkContains(p.subnet.value, To16(p.last.value))
    && NetworkContains(p.subnet.value, To16(p.gateway.value))
    && Value(To16(p.first.value)) <= Value(To16(p.last.value))
    && (forall i :: 0 <= i < |p.dns| ==> p.dns[i].Some?) && 0 <= p.vlan <= 4094 && p.keaSubnet > 0
  }

  /** Each by itself, and no name or Kea subnet twice. */
  predicate AllInOrder(pools: seq<PoolConfig>)
    requires forall i :: 0 <= i < |pools| ==> IsConfig(pools[i])
  {
    && (forall i :: 0 <= i < |pools| ==> InOrder(pools[i]))
    && (forall i, j :: 0 <= i < j < |pools| ==>
          pools[i].name != pools[j].name && pools[i].keaSubnet != pools[j].keaSubnet)
  }

  lemma InOrderIsAcceptable(p: PoolConfig)
    requires IsConfig(p)
    ensures InOrder(p) <==> Acceptable(p)
  {
  }

  lemma ValidInWords(pools: seq<PoolConfig>)
    requires forall i :: 0 <= i < |pools| ==> IsConfig(pools[i])
    ensures Valid(pools, |pools|) <==> AllInOrder(pools)
  {
    forall i | 0 <= i < |pools| ensures InOrder(pools[i]) <==> Acceptable(pools[i]) {
      InOrderIsAcceptable(pools[i]);
    }
    assert forall i :: 0 <= i < |pools| ==> NamesOf(pools)[i] == pools[i].name;
    assert forall i :: 0 <= i < |pools| ==> KeaSubnetsOf(pools)[i] == pools[i].keaSubnet;
  }

  /** validatePools: no problem is found exactly when every pool is acceptable and no name or Kea subnet repeats. */
  method ValidatePools(pools: seq<PoolConfig>) returns (problems: seq<Problem>)
    requires forall i :: 0 <= i < |pools| ==> IsConfig(pools[i])
    ensures problems == [] <==> Valid(pools, |pools|)
    ensures problems == [] <==> AllInOrder(pools)
  {
    problems := FindProblems(pools);
    ValidInWords(pools);
  }

  /** The loop over the pools. */
  method FindProblems(pools: seq<PoolConfig>) returns (problems: seq<Problem>)
    requires forall i :: 0 <= i < |pools| ==> IsConfig(pools[i])
    ensures problems == [] <==> Valid(pools, |pools|)
  {
    problems := [];
    var names: map<string, nat> := map[];
    var keaIds: map<int, nat> := map[];
    for index := 0 to |pools|
      invariant problems == [] <==> Valid(pools, index)
      invariant problems == [] ==> Seen(pools, index, names, keaIds)
    {
      ValidIsMonotone(pools, index);
      if problems == [] {
        OneMorePool(pools, index, names, keaIds);
      }
      var found: seq<Problem>;
      found, names, keaIds := CheckOne(index, pools[index], names, keaIds);
      problems := problems + found;
    }
  }

  // ----- a CIDR block is an interval

  /** Equal but for the bits behind the prefix. */
  predicate SamePrefix(x: seq<Byte>, y: seq<Byte>, ones: nat)
    requires |x| == |y| && ones <= 8 * |x|
  {
    Shift(Value(x), 8 * |x| - ones) == Shift(Value(y), 8 * |x| - ones)
  }

  lemma MaskWithoutLast(x: seq<Byte>, y: seq<Byte>, ones: nat, front: nat)
    requires |x| == |y| > 0 && forall i :: 0 <= i < |x| - 1 ==> OnesIn(ones, i) == OnesIn(front, i)
    ensures var n := |x| - 1;
            SameUnderMask(x, y, ones) <==> SameUnderMask(x[..n], y[..n], front) && SameBits(x[n], y[n], OnesIn(ones, n))
  {
    var n := |x| - 1;
    assert forall i :: 0 <= i < n ==> x[..n][i] == x[i] && y[..n][i] == y[i];
  }

  lemma FreeByte(a: Byte, b: Byte)
    ensures SameBits(a, b, 0)
  {
    SmallShift(a, 8);
    SmallShift(b, 8);
  }

  lemma PrefixWithoutLast(x: seq<Byte>, y: seq<Byte>, ones: nat)
    requires |x| == |y| > 0 && ones <= 8 * (|x| - 1)
    ensures SamePrefix(x, y, ones) <==> SamePrefix(x[..|x| - 1], y[..|y| - 1], ones)
  {
    var n := |x| - 1;
    ShiftDigitOut(Value(x[..n]), x[n], 8 * n - ones);
    ShiftDigitOut(Value(y[..n]), y[n], 8 * n - ones);
  }

  lemma PrefixIntoLast(x: seq<Byte>, y: seq<Byte>, ones: nat)
    requires |x| == |y| > 0 && 8 * (|x| - 1) < ones <= 8 * |x|
    ensures var n := |x| - 1;
            SamePrefix(x, y, ones) <==> SamePrefix(x[..n], y[..n], 8 * n) && SameBits(x[n], y[n], OnesIn(ones, n))
  {
    var n, free := |x| - 1, 8 * |x| - ones;
    assert 8 - OnesIn(ones, n) == free;
    ShiftInDigit(Value(x[..n]), x[n], Value(y[..n]), y[n], free);
  }

  /** Comparing byte by byte under the mask is comparing the values without their last bits. */
  lemma {:induction false} PrefixIsShift(x: seq<Byte>, y: seq<Byte>, ones: nat)
    requires |x| == |y| && ones <= 8 * |x|
    ensures SameUnderMask(x, y, ones) <==> SamePrefix(x, y, ones)
    decreases |x|
  {
    if |x| > 0 {
      var n := |x| - 1;
      if ones <= 8 * n {
        MaskWithoutLast(x, y, ones, ones);
        FreeByte(x[n], y[n]);
        PrefixIsShift(x[..n], y[..n], ones);
        PrefixWithoutLast(x, y, ones);
      } else {
        PrefixIsShift(x[..n], y[..n], 8 * n);
        MaskWithoutLast(x, y, ones, 8 * n);
        PrefixIntoLast(x, y, ones);
      }
    }
  }

  lemma PrefixBetween(network: seq<Byte>, first: seq<Byte>, mid: seq<Byte>, last: seq<Byte>, ones: nat)
    requires |network| == |first| == |mid| == |last| && ones <= 8 * |first|
    requires SamePrefix(network, first, ones) && SamePrefix(network, last, ones)
    requires Value(first) <= Value(mid) <= Value(last)
    ensures SamePrefix(network, mid, ones)
  {
    ShiftMonotone(Value(first), Value(mid), 8 * |first| - ones);
    ShiftMonotone(Value(mid), Value(last), 8 * |first| - ones);
  }

  /** RFC 4632 section 3.1: what lies between two addresses of a prefix belongs to the prefix. */
  lemma BlockIsInterval(subnet: Subnet, first: seq<Byte>, mid: seq<Byte>, last: seq<Byte>)
    requires IsSubnet(subnet) && |subnet.network| == |first| == |mid| == |last|
    requires SameUnderMask(subnet.network, first, subnet.ones) && SameUnderMask(subnet.network, last, subnet.ones)
    requires Value(first) <= Value(mid) <= Value(last)
    ensures SameUnderMask(subnet.network, mid, subnet.ones)
  {
    PrefixIsShift(subnet.network, first, subnet.ones);
    PrefixIsShift(subnet.network, last, subnet.ones);
    PrefixBetween(subnet.network, first, mid, last, subnet.ones);
    PrefixIsShift(subnet.network, mid, subnet.ones);
  }

  /**
    Subnet containment.  When validation accepts a pool, every address that allocation enumerates for it lies in the
    subnet of the pool.
   */
  method AddressesOf(p: PoolConfig) returns (range: Range)
    requires IsConfig(p) && Acceptable(p)
    ensures range.Range? ==> forall a <- range.addresses :: forall h ::
              IsHost(h) && h.Host4? && Value(h.bytes) == a ==> NetworkContains(p.subnet.value, To16(h))
    ensures range.Range? || range.TooLarge? <==> p.first.value.Host4? && p.last.value.Host4?
  {
    var first, last := ToAddr(p.first.value), ToAddr(p.last.value);
    HostsAreAddrs(p.first.value);
    HostsAreAddrs(p.last.value);
    if p.first.value.Host4? && p.last.value.Host4? {
      MappedOrder(p.first.value, p.last.value);
    }
    range := Enumerate(Some(first), Some(last));
    if range.Range? {
      forall a, h | a in range.addresses && IsHost(h) && h.Host4? && Value(h.bytes) == a
        ensures NetworkContains(p.subnet.value, To16(h))
      {
        BetweenIsInside(p.subnet.value, p.first.value, h, p.last.value);
      }
    }
  }

  lemma BetweenIsInside(subnet: Subnet, first: Host, mid: Host, last: Host)
    requires IsSubnet(subnet) && IsHost(first) && IsHost(mid) && IsHost(last)
    requires first.Host4? && mid.Host4? && last.Host4?
    requires NetworkContains(subnet, To16(first)) && NetworkContains(subnet, To16(last))
    requires Value(first.bytes) <= Value(mid.bytes) <= Value(last.bytes)
    ensures NetworkContains(subnet, To16(mid))
  {
    forall h: Host | h in {first, mid, last} ensures To4(To16(h)) == Some(h.bytes) {
      assert To16(h)[..12] == MAPPED_PREFIX && To16(h)[12..] == h.bytes;
    }
    BlockIsInterval(subnet, first.bytes, mid.bytes, last.bytes);
  }

  /** 256 to the power of n */
  function Bound(n: nat): nat {
    if n == 0 then 1 else 256 * Bound(n - 1)
  }

  lemma {:induction false} ValueBound(bytes: seq<Byte>)
    ensures Value(bytes) < Bound(|bytes|)
  {
    if |bytes| > 0 {
      ValueBound(bytes[..|bytes| - 1]);
    }
  }

  lemma HostsAreAddrs(h: Host)
    requires IsHost(h)
    ensures IsAddr(ToAddr(h))
  {
    ValueBound(h.bytes);
    assert Bound(4) == 0x1_0000_0000;
    assert Bound(8) == 0x1_0000_0000_0000_0000;
    assert Bound(12) == 0x1_0000_0000_0000_0000_0000_0000;
    assert Bound(16) == 0x1_0000_0000_0000_0000_0000_0000_0000_0000;
  }

  /** Behind equal bytes the difference of two values is that of their ends. */
  lemma {:induction false} EqualFront(front: seq<Byte>, x: seq<Byte>, y: seq<Byte>)
    requires |x| == |y|
    ensures Value(front + x) - Value(front + y) == Value(x) - Value(y)
  {
    if |x| > 0 {
      var n := |x| - 1;
      assert (front + x)[..|front + x| - 1] == front + x[..n] && (front + y)[..|front + y| - 1] == front + y[..n];
      EqualFront(front, x[..n], y[..n]);
    }
  }

  /** Four-byte order is sixteen-byte order. */
  lemma MappedOrder(a: Host, b: Host)
    requires IsHost(a) && IsHost(b) && a.Host4? && b.Host4?
    ensures Value(To16(a)) <= Value(To16(b)) <==> Value(a.bytes) <= Value(b.bytes)
  {
    EqualFront(MAPPED_PREFIX, a.bytes, b.bytes);
  }
}
