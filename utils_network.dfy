/**
 * Network handling of the machine actuator's helper package
 * (pkg/cloud/libvirt/actuators/machine/utils/network.go): static DHCP host
 * entries, the default network definition, `CreateNetwork` with its network
 * modes and DHCP ranges, `networkRange` and `DeleteNetwork`.
 *
 * `CreateNetwork` receives each address as its text together with what
 * `net.ParseCIDR` makes of it; the parser itself is not modelled.
 */
module UtilsNetwork {
  import opened Wrappers
  import opened Strs
  import opened LibvirtXml
  import opened Hypervisor
  import opened Cidr
  import ClientNetwork

  // ----- static DHCP hosts -----

  /** The errors after which this `updateOrAddHost` adds the host: ERR_OPERATION_INVALID raised by the network driver. */
  predicate AddsAfter(err: Outcome) {
    err.Some? && err.value.Virt? && err.value.code == OperationInvalid && err.value.domain == FromNetwork
  }

  /**
   * The fallback here is narrower than the newest client's, which adds after
   * ERR_OPERATION_INVALID from any driver: the two differ exactly on errors
   * of that code that another driver raised.
   */
  lemma AddsAfterNarrower(err: Outcome)
    ensures AddsAfter(err) ==> ClientNetwork.AddsAfter(err)
    ensures ClientNetwork.AddsAfter(err) && !AddsAfter(err) <==>
              err.Some? && err.value == Virt(OperationInvalid, FromOther)
  {
  }

  /** libvirt's answer to modifying a host that is not there is one on which both generations add. */
  lemma MissingHostAdds(c: Connect, network: string, mac: string)
    requires Call.NetworkUpdateModify(network) !in c.fails && network in c.store.networks
    requires c.HostWithMac(c.store.networks[network].hosts, mac).None?
    ensures AddsAfter(c.ModifyAnswer(network, mac)) && ClientNetwork.AddsAfter(c.ModifyAnswer(network, mac))
  {
  }

  /**
   * `updateOrAddHost(n, ip, mac, name)`: modifies the static host with the
   * same MAC; when the network driver answers ERR_OPERATION_INVALID the host
   * is appended instead, and any other outcome of the modify is the result.
   */
  method UpdateOrAddHost(c: Connect, network: string, ip: string, mac: string, name: string) returns (err: Outcome)
    modifies c
    ensures !AddsAfter(old(c.ModifyAnswer(network, mac))) ==>
              err == old(c.ModifyAnswer(network, mac)) && c.trace == old(c.trace) + [Call.NetworkUpdateModify(network)]
    ensures AddsAfter(old(c.ModifyAnswer(network, mac))) ==>
              c.trace == old(c.trace) + [Call.NetworkUpdateModify(network), Call.NetworkUpdateAdd(network)] &&
              err == c.Effect(Call.NetworkUpdateAdd(network), network in old(c.store.networks), NoNetwork)
    ensures err == None ==>
              (network in c.store.networks && DHCPHost(ip, mac, name) in c.store.networks[network].hosts)
    ensures err.Some? ==> c.store == old(c.store)
    ensures err.None? ==>
              network in old(c.store.networks) && network in c.store.networks &&
              c.store == old(c.store).(networks := old(c.store.networks)[network := old(c.store.networks)[network].(
                                         hosts := c.store.networks[network].hosts)])
    ensures err.None? && !AddsAfter(old(c.ModifyAnswer(network, mac))) ==>
              network in old(c.store.networks) && c.HostWithMac(old(c.store.networks)[network].hosts, mac).Some? &&
              c.store.networks[network].hosts ==
                old(c.store.networks)[network].hosts[c.HostWithMac(old(c.store.networks)[network].hosts, mac).value :=
                                                      DHCPHost(ip, mac, name)]
    ensures err.None? && AddsAfter(old(c.ModifyAnswer(network, mac))) ==>
              network in old(c.store.networks) &&
              c.store.networks[network].hosts == old(c.store.networks)[network].hosts + [DHCPHost(ip, mac, name)]
    ensures c.store.domains == old(c.store.domains) && c.store.volumes == old(c.store.volumes)
    ensures c.store.networks - {network} == old(c.store.networks) - {network}
    ensures forall n :: n != network ==> (n in c.store.networks <==> n in old(c.store.networks))
  {
    var host := DHCPHost(ip, mac, name);
    err := c.NetworkUpdateModify(network, host);
    if AddsAfter(err) {
      err := c.NetworkUpdateAdd(network, host);
      if err.None? {
        assert c.store.networks[network].hosts[|c.store.networks[network].hosts| - 1] == host;
      }
    } else if err.None? {
      assert c.store.networks[network].hosts[c.HostWithMac(old(c.store.networks[network].hosts), mac).value] == host;
    }
  }

  // ----- the default network -----

  /** The NAT port range of the default network. */
  const DefaultNat := NatPorts(1024, 65535)

  /** `newNetworkDef()`: the network "default", forwarding with NAT over ports 1024-65535, without addresses. */
  function DefaultNetworkDef(): (d: NetworkDef)
    ensures d.name == "default" && d.forward == Some(Forward(ClientNetwork.NetModeNat, Some(DefaultNat)))
    ensures d.domain.None? && d.bridge.None? && d.ips == []
  {
    NetworkDef("default", None, None, Some(Forward(ClientNetwork.NetModeNat, Some(DefaultNat))), [])
  }

  // ----- networkRange -----

  /** The form `networkRange` works on: `IP.To4()`, else the 16-byte address. */
  function NetIP(ip: IP): (r: IP)
    ensures |ip| == 4 || |ip| == 16 ==> |r| == 4 || |r| == 16
    ensures |ip| == 4 || To4(ip).None? ==> r == ip
  {
    if To4(ip).Some? then To4(ip).value else ip
  }

  /** The last address of a network: each byte of the address with the host bits set. */
  function LastIP(n: IPNet): (r: IP)
    requires ParsedCidr(n)
  {
    var a := NetIP(n.ip);
    seq(|a|, i requires 0 <= i < |a| => Or(a[i], Not(n.mask[i])))
  }

  /**
   * `networkRange(network)`: the first address is the address masked (nil
   * when `IP.Mask` finds the lengths do not match), the last one is the
   * address with every bit outside the mask set, byte by byte.
   */
  method NetworkRange(network: IPNet) returns (first: Option<IP>, last: IP)
    requires ParsedCidr(network)
    ensures first == MaskIP(NetIP(network.ip), network.mask)
    ensures |last| == |NetIP(network.ip)|
    ensures forall i :: 0 <= i < |last| ==> last[i] == Or(NetIP(network.ip)[i], Not(network.mask[i]))
    ensures last == LastIP(network)
  {
    var netIP := To4(network.ip);
    var lastIP: array<byte>;
    if netIP.None? {
      netIP := Some(network.ip);
      lastIP := new byte[16](_ => 0);
    } else {
      lastIP := new byte[4](_ => 0);
    }
    first := MaskIP(netIP.value, network.mask);
    for i := 0 to lastIP.Length
      invariant forall j :: 0 <= j < i ==> lastIP[j] == Or(netIP.value[j], Not(network.mask[j]))
    {
      lastIP[i] := Or(netIP.value[i], Not(network.mask[i]));
    }
    last := lastIP[..];
  }

  // ----- the netmask check -----

  /** The low `n` bits of `a` and `b`, combined bit by bit: set where exactly one is set. */
  function XorBits(a: nat, b: nat, n: nat): (r: nat)
    ensures r < Pow2(n)
  {
    if n == 0 then 0 else 2 * XorBits(a / 2, b / 2, n - 1) + (if a % 2 != b % 2 then 1 else 0)
  }

  /** Go's `^` on the small non-negative integers of the netmask check: bitwise exclusive or. */
  function Xor(a: byte, b: byte): byte {
    assert Pow2(8) == 256;
    XorBits(a, b, 8)
  }

  lemma {:induction false} XorZero(b: nat, n: nat)
    requires b < Pow2(n)
    ensures XorBits(0, b, n) == b
    decreases n
  {
    if n > 0 {
      XorZero(b / 2, n - 1);
    }
  }

  lemma {:induction false} XorSelf(a: nat, n: nat)
    ensures XorBits(a, a, n) == 0
    decreases n
  {
    if n > 0 {
      XorSelf(a / 2, n - 1);
    }
  }

  /** A power of two above every bit of `y` is simply added. */
  lemma {:induction false} XorHigh(j: nat, y: nat, n: nat)
    requires j < n && y < Pow2(j)
    ensures XorBits(Pow2(j), y, n) == Pow2(j) + y
    decreases j
  {
    if j == 0 {
      XorZero(0, n - 1);
    } else {
      XorHigh(j - 1, y / 2, n - 1);
    }
  }

  /** Exclusive or with 2 adds 2 to a multiple of four. */
  lemma XorTwoBits(b: nat, n: nat)
    requires 2 <= n && b % 4 == 0 && b < Pow2(n)
    ensures XorBits(2, b, n) == b + 2
  {
    var h := b / 2;
    assert b < 4 * Pow2(n - 2);
    XorZero(h / 2, n - 2);
    assert XorBits(1, h, n - 1) == 2 * XorBits(0, h / 2, n - 2) + 1;
    assert XorBits(2, b, n) == 2 * XorBits(1, h, n - 1);
  }

  /** Go's `2 ^ bits` for a bit length: the bit length plus two. */
  lemma XorTwo(bits: byte)
    requires bits % 8 == 0 && bits <= 128
    ensures Xor(2, bits) - 2 == bits
  {
    assert Pow2(8) == 256;
    XorTwoBits(bits, 8);
  }

  /**
   * `ipsRange` as written, `2 ^ bits - 2 ^ ones`: `^` is exclusive or in Go
   * and binds like `-`, so this is ((2 XOR bits) - 2) XOR ones.
   */
  function IpsRangeAsWritten(ones: nat, bits: nat): (r: int)
    requires ones <= bits <= 128 && bits % 8 == 0
  {
    XorTwo(bits);
    Xor(Xor(2, bits) - 2, ones)
  }

  predicate TooStrictAsWritten(ones: nat, bits: nat)
    requires ones <= bits <= 128 && bits % 8 == 0
  {
    IpsRangeAsWritten(ones, bits) < 4
  }

  /** As written, the check refuses only a full-length prefix (/32 or /128). */
  lemma AsWrittenRefusesOnlyFullPrefix(ones: nat, bits: nat)
    requires bits == 32 || bits == 128
    requires ones <= bits
    ensures TooStrictAsWritten(ones, bits) <==> ones == bits
  {
    XorTwo(bits);
    assert IpsRangeAsWritten(ones, bits) == Xor(bits, ones);
    var j := if bits == 32 then 5 else 7;
    assert Pow2(5) == 32 && Pow2(7) == 128;
    if ones == bits {
      XorSelf(bits, 8);
    } else {
      XorHigh(j, ones, 8);
    }
  }

  /** The number of addresses in a network with `ones` prefix bits out of `bits`. */
  function IpsRange(ones: nat, bits: nat): (r: nat)
    requires ones <= bits
  {
    Pow2(bits - ones)
  }

  /** The check as intended: a network with fewer than four addresses is too small. */
  predicate TooStrict(ones: nat, bits: nat)
    requires ones <= bits
  {
    IpsRange(ones, bits) < 4
  }

  /** The intended check refuses exactly the prefixes that leave fewer than two host bits. */
  lemma TooStrictIff(ones: nat, bits: nat)
    requires ones <= bits
    ensures TooStrict(ones, bits) <==> bits - ones < 2
  {
    if bits - ones >= 2 {
      Pow2Mono(2, bits - ones);
    }
  }

  /**
   * The two checks differ only on a prefix one bit short of full length
   * (/31 or /127), which the check as written accepts and the intended one
   * refuses.
   */
  lemma ChecksDifferOnlyOneBitShort(ones: nat, bits: nat)
    requires bits == 32 || bits == 128
    requires ones <= bits
    ensures TooStrict(ones, bits) != TooStrictAsWritten(ones, bits) <==> ones == bits - 1
    ensures ones == bits - 1 ==> TooStrict(ones, bits) && !TooStrictAsWritten(ones, bits)
  {
    AsWrittenRefusesOnlyFullPrefix(ones, bits);
    TooStrictIff(ones, bits);
  }

  // ----- one address -----

  /** A `CreateNetwork` address: its text, and the network `net.ParseCIDR` reads from it or the parse error. */
  datatype Address = Address(text: string, parsed: Result<IPNet>)

  /** What the parser guarantees: a parsed network is an IPv4 or an IPv6 one. */
  predicate Parsed(a: Address) {
    a.parsed.Ok? ==> ParsedCidr(a.parsed.value)
  }

  predicate AllParsed(addresses: seq<Address>) {
    forall i :: 0 <= i < |addresses| ==> Parsed(addresses[i])
  }

  /** The address family: "ipv6" exactly when the mask has 128 bits. */
  function Family(bits: nat): (f: string)
    ensures f == "ipv6" <==> bits == 128
    ensures f == "ipv4" <==> bits != 128
  {
    if bits == 128 then "ipv6" else "ipv4"
  }

  /** The host's address, the first address DHCP serves and the last one. */
  datatype HostAddrs = HostAddrs(host: IP, start: IP, end: IP)

  /**
   * The addresses `CreateNetwork` derives from a network: the first address
   * with its last byte incremented is the host's, incremented once more it
   * starts the DHCP range, which ends at the last address with its last byte
   * decremented.  Bytes wrap around.  None when the first address is nil,
   * where incrementing its last byte panics.
   */
  function Hosts(n: IPNet): (r: Option<HostAddrs>)
    requires ParsedCidr(n)
    ensures r.None? <==> MaskIP(NetIP(n.ip), n.mask).None?
  {
    var first := MaskIP(NetIP(n.ip), n.mask);
    var last := LastIP(n);
    if first.None? then None
    else
      var f := first.value;
      var k := |f| - 1;
      var host := f[k := Inc(f[k])];
      Some(HostAddrs(host, host[k := Inc(host[k])], last[|last| - 1 := Dec(last[|last| - 1])]))
  }

  function TooStrictMessage(available: int, family: string): string {
    "Netmask seems to be too strict: only " + IntToDecimal(available) + " IPs available (" + family + ")"
  }

  /** The panic of `start[len(start)-1]++` on a nil address. */
  const IndexMinusOne := "index out of range [-1]"

  /**
   * The `<ip>` element for one address: the parse error, the netmask error
   * (of the intended check), or the host address with the prefix length and
   * family and its DHCP range.
   */
  function IPFor(a: Address): (r: Result<NetworkIP>)
    requires Parsed(a)
  {
    if a.parsed.Err? then Err(Wrap("error parsing addresses definition " + Quote(a.text), a.parsed.error))
    else
      var n := a.parsed.value;
      var (ones, bits) := MaskSize(n.mask);
      if TooStrict(ones, bits) then Err(Fail(TooStrictMessage(IpsRange(ones, bits) - 3, Family(bits))))
      else match Hosts(n)
        case None => Err(Panic(IndexMinusOne))
        case Some(h) =>
          Ok(NetworkIP(IPString(h.host), ones, Family(bits), Some([DHCPRange(IPString(h.start), IPString(h.end))])))
  }

  /** One iteration of `CreateNetwork`'s address loop. */
  method NetworkIPFor(a: Address) returns (r: Result<NetworkIP>)
    requires Parsed(a)
    ensures r == IPFor(a)
    ensures r.Ok? ==> a.parsed.Ok? && r.value.prefix == MaskSize(a.parsed.value.mask).0 &&
                      (r.value.family == "ipv6" <==> MaskSize(a.parsed.value.mask).1 == 128)
  {
    if a.parsed.Err? {
      return Err(Wrap("error parsing addresses definition " + Quote(a.text), a.parsed.error));
    }
    var ipNet := a.parsed.value;
    var (ones, bits) := MaskSize(ipNet.mask);
    var family := "ipv4";
    if bits == 128 {
      family := "ipv6";
    }
    var ipsRange: int := IpsRange(ones, bits);
    if ipsRange < 4 {
      return Err(Fail(TooStrictMessage(ipsRange - 3, family)));
    }
    var hosts := HostAddresses(ipNet);
    if hosts.None? {
      return Err(Panic(IndexMinusOne));
    }
    var h := hosts.value;
    r := Ok(NetworkIP(IPString(h.host), ones, family, Some([DHCPRange(IPString(h.start), IPString(h.end))])));
  }

  /** The address loop's use of `networkRange`: the host address and the DHCP range, stepped from the first and last addresses. */
  method HostAddresses(ipNet: IPNet) returns (r: Option<HostAddrs>)
    requires ParsedCidr(ipNet)
    ensures r == Hosts(ipNet)
  {
    var start, end := NetworkRange(ipNet);
    if start.None? {
      return None;
    }
    var s := start.value;
    s := s[|s| - 1 := Inc(s[|s| - 1])];
    var address := s;
    s := s[|s| - 1 := Inc(s[|s| - 1])];
    end := end[|end| - 1 := Dec(end[|end| - 1])];
    r := Some(HostAddrs(address, s, end));
  }

  // ----- the DHCP range lies in the network -----

  /** A network whose address `networkRange` uses as given: IPv4, or IPv6 that is not IPv4-mapped. */
  predicate Plain(n: IPNet) {
    ParsedCidr(n) && (|n.ip| == 4 || To4(n.ip).None?)
  }

  /** The network an address of the same length as the mask belongs to. */
  function Masked(x: IP, mask: seq<byte>): (r: IP)
    requires |x| == |mask|
  {
    seq(|x|, i requires 0 <= i < |x| => And(x[i], mask[i]))
  }

  lemma MaskIPPlain(x: IP, mask: seq<byte>)
    requires |x| == |mask| && (|x| == 4 || |x| == 16)
    ensures MaskIP(x, mask) == Some(Masked(x, mask))
  {
  }

  /**
   * One byte under a canonical mask byte `256 - 2^h`: the byte with the host
   * bits set is the masked byte plus `2^h - 1`, and the masked byte plus
   * anything less than `2^h` masks back to the masked byte.
   */
  lemma MaskedByte(x: byte, h: nat, d: nat)
    requires h <= 8 && d < Pow2(h)
    ensures Pow2(h) <= 256
    ensures Or(x, Not(256 - Pow2(h))) == And(x, 256 - Pow2(h)) + Pow2(h) - 1
    ensures And(x, 256 - Pow2(h)) + d < 256
    ensures And(And(x, 256 - Pow2(h)) + d, 256 - Pow2(h)) == And(x, 256 - Pow2(h))
  {
    var m := 256 - Pow2(h);
    AndMaskByte(x, h);
    OrNotMaskByte(x, h);
    var f := And(x, m);
    assert f == ClearLow(x, h);
    assert f + d <= Or(x, Not(m));
    AndMaskByte(f + d, h);
    ClearPlus(x, h, d);
  }

  /** Any byte of a canonical mask: the masked byte is at most the byte with the host bits set, and both mask back to it. */
  lemma ByteOrder(x: byte, ones: nat, i: nat)
    ensures And(x, MaskByte(ones, i)) <= Or(x, Not(MaskByte(ones, i)))
    ensures And(And(x, MaskByte(ones, i)), MaskByte(ones, i)) == And(x, MaskByte(ones, i))
    ensures And(Or(x, Not(MaskByte(ones, i))), MaskByte(ones, i)) == And(x, MaskByte(ones, i))
  {
    var h := ByteHostBits(ones, i);
    MaskBytePow2(ones, i);
    MaskedByte(x, h, 0);
    MaskedByte(x, h, Pow2(h) - 1);
  }

  /**
   * The last byte of a mask that leaves at least two host bits: the first
   * address's last byte takes two increments without carrying out of the
   * network, and the last address's last byte one decrement.
   */
  lemma LastByte(x: byte, ones: nat, w: nat)
    requires 1 <= w && ones + 2 <= 8 * w
    ensures var m := MaskByte(ones, w - 1);
            And(x, m) + 2 < 256 && Or(x, Not(m)) >= 1 && And(x, m) + 3 <= Or(x, Not(m)) &&
            And(And(x, m) + 1, m) == And(x, m) && And(And(x, m) + 2, m) == And(x, m) &&
            And(Or(x, Not(m)) - 1, m) == And(x, m)
  {
    var h := ByteHostBits(ones, w - 1);
    assert h >= 2;
    Pow2Mono(2, h);
    assert Pow2(2) == 4;
    MaskBytePow2(ones, w - 1);
    var m := MaskByte(ones, w - 1);
    assert m == 256 - Pow2(h);
    MaskedByte(x, h, 1);
    MaskedByte(x, h, 2);
    MaskedByte(x, h, Pow2(h) - 2);
    var f := And(x, m);
    assert And(f + 1, m) == f;
    assert And(f + 2, m) == f;
  }

  /** Changing only the last byte of an address changes its value by the same amount. */
  lemma BytesValueLast(s: seq<byte>, v: byte)
    requires |s| > 0
    ensures BytesValue(s[|s| - 1 := v]) == BytesValue(s) - s[|s| - 1] + v
  {
    assert s[|s| - 1 := v][..|s| - 1] == s[..|s| - 1];
  }

  /** A byte-wise smaller or equal address has a smaller or equal value. */
  lemma {:induction false} BytesValueMono(a: seq<byte>, b: seq<byte>)
    requires |a| == |b| && forall i :: 0 <= i < |a| ==> a[i] <= b[i]
    ensures BytesValue(a) <= BytesValue(b)
    decreases |a|
  {
    if |a| > 0 {
      BytesValueMono(a[..|a| - 1], b[..|b| - 1]);
    }
  }

  /** `Hosts` of a plain network, in terms of the masked address and the last address. */
  lemma HostsPlain(n: IPNet)
    requires Plain(n)
    ensures NetIP(n.ip) == n.ip
    ensures |Masked(n.ip, n.mask)| == |LastIP(n)| == |n.mask|
    ensures Hosts(n).Some?
    ensures var f, l, k := Masked(n.ip, n.mask), LastIP(n), |n.mask| - 1;
            Hosts(n).value == HostAddrs(f[k := Inc(f[k])], f[k := Inc(Inc(f[k]))], l[k := Dec(l[k])])
  {
    MaskIPPlain(n.ip, n.mask);
    var f, k := Masked(n.ip, n.mask), |n.mask| - 1;
    var host := f[k := Inc(f[k])];
    assert host[k := Inc(host[k])] == f[k := Inc(Inc(f[k]))];
  }

  /** The bytes of a plain network's mask, and its last byte, which leaves at least two host bits. */
  lemma PlainMask(n: IPNet)
    requires Plain(n) && !TooStrict(MaskSize(n.mask).0, MaskSize(n.mask).1)
    ensures var ones, w := MaskSize(n.mask).0, |n.mask|;
            w >= 1 && ones + 2 <= 8 * w && forall i :: 0 <= i < w ==> n.mask[i] == MaskByte(ones, i)
  {
    var (ones, bits) := MaskSize(n.mask);
    TooStrictIff(ones, bits);
    assert bits == 8 * |n.mask| && n.mask == CIDRMask(ones, 8 * |n.mask|);
  }

  /**
   * Under the intended check, the host address and the whole DHCP range
   * belong to the network: masking each gives the network's own address; the
   * host is the first address plus one, the range starts at the first
   * address plus two, ends at the last address minus one, and is not empty.
   */
  lemma {:induction false} RangeInsideNetwork(n: IPNet)
    requires Plain(n) && !TooStrict(MaskSize(n.mask).0, MaskSize(n.mask).1)
    ensures Hosts(n).Some?
    ensures var h := Hosts(n).value;
            var f := Masked(n.ip, n.mask);
            MaskIP(h.host, n.mask) == Some(f) && MaskIP(h.start, n.mask) == Some(f) &&
            MaskIP(h.end, n.mask) == Some(f) &&
            BytesValue(h.host) == BytesValue(f) + 1 && BytesValue(h.start) == BytesValue(f) + 2 &&
            BytesValue(h.end) == BytesValue(LastIP(n)) - 1 &&
            BytesValue(h.start) <= BytesValue(h.end)
  {
    var ones := MaskSize(n.mask).0;
    PlainMask(n);
    HostsPlain(n);
    var h := Hosts(n).value;
    RangeMasks(n, ones, h);
    RangeValues(Masked(n.ip, n.mask), LastIP(n), h);
  }

  /**
   * The host address and the DHCP range of a plain network mask back to its
   * address, byte by byte, and differ from the first and last addresses by
   * one or two in their last byte, without wrapping around.
   */
  lemma RangeMasks(n: IPNet, ones: nat, h: HostAddrs)
    requires Plain(n) && 1 <= |n.mask| && ones + 2 <= 8 * |n.mask|
    requires forall i :: 0 <= i < |n.mask| ==> n.mask[i] == MaskByte(ones, i)
    requires |LastIP(n)| == |n.mask|
    requires var f, l, k := Masked(n.ip, n.mask), LastIP(n), |n.mask| - 1;
             h == HostAddrs(f[k := Inc(f[k])], f[k := Inc(Inc(f[k]))], l[k := Dec(l[k])])
    ensures var f := Masked(n.ip, n.mask);
            MaskIP(h.host, n.mask) == Some(f) && MaskIP(h.start, n.mask) == Some(f) &&
            MaskIP(h.end, n.mask) == Some(f)
    ensures forall i :: 0 <= i < |n.mask| ==> h.start[i] <= h.end[i]
    ensures var f, l, k := Masked(n.ip, n.mask), LastIP(n), |n.mask| - 1;
            h.host[k] as int == f[k] as int + 1 && h.start[k] as int == f[k] as int + 2 &&
            h.end[k] as int == l[k] as int - 1
  {
    var f := Masked(n.ip, n.mask);
    RangeBytes(n, ones, h);
    assert Masked(h.host, n.mask) == f;
    assert Masked(h.start, n.mask) == f;
    assert Masked(h.end, n.mask) == f;
    MaskIPPlain(h.host, n.mask);
    MaskIPPlain(h.start, n.mask);
    MaskIPPlain(h.end, n.mask);
  }

  /** The bytes of the host address and of the DHCP range, each masked back to the network's byte. */
  lemma RangeBytes(n: IPNet, ones: nat, h: HostAddrs)
    requires Plain(n) && 1 <= |n.mask| && ones + 2 <= 8 * |n.mask|
    requires forall i :: 0 <= i < |n.mask| ==> n.mask[i] == MaskByte(ones, i)
    requires |LastIP(n)| == |n.mask|
    requires var f, l, k := Masked(n.ip, n.mask), LastIP(n), |n.mask| - 1;
             h == HostAddrs(f[k := Inc(f[k])], f[k := Inc(Inc(f[k]))], l[k := Dec(l[k])])
    ensures |h.host| == |h.start| == |h.end| == |n.mask|
    ensures forall i :: 0 <= i < |n.mask| ==>
              And(h.host[i], n.mask[i]) == Masked(n.ip, n.mask)[i] && And(h.start[i], n.mask[i]) == Masked(n.ip, n.mask)[i] &&
              And(h.end[i], n.mask[i]) == Masked(n.ip, n.mask)[i] && h.start[i] <= h.end[i]
    ensures var f, l, k := Masked(n.ip, n.mask), LastIP(n), |n.mask| - 1;
            h.host[k] as int == f[k] as int + 1 && h.start[k] as int == f[k] as int + 2 &&
            h.end[k] as int == l[k] as int - 1
  {
    var f, l, w := Masked(n.ip, n.mask), LastIP(n), |n.mask|;
    assert NetIP(n.ip) == n.ip;
    var k := w - 1;
    LastByte(n.ip[k], ones, w);
    assert n.mask[k] == MaskByte(ones, k);
    assert f[k] == And(n.ip[k], n.mask[k]) && l[k] == Or(n.ip[k], Not(n.mask[k]));
    assert Inc(f[k]) as int == f[k] as int + 1 && Inc(Inc(f[k])) as int == f[k] as int + 2;
    assert Dec(l[k]) as int == l[k] as int - 1;
    forall i | 0 <= i < w
      ensures And(h.host[i], n.mask[i]) == f[i] && And(h.start[i], n.mask[i]) == f[i]
      ensures And(h.end[i], n.mask[i]) == f[i] && h.start[i] <= h.end[i]
    {
      assert n.mask[i] == MaskByte(ones, i);
      assert f[i] == And(n.ip[i], n.mask[i]) && l[i] == Or(n.ip[i], Not(n.mask[i]));
      if i < k {
        assert h.host[i] == f[i] && h.start[i] == f[i] && h.end[i] == l[i];
      } else {
        assert i == k;
      }
      RangeByte(n.ip[i], ones, i, w, h.host[i], h.start[i], h.end[i]);
    }
  }

  /**
   * One byte of the host address and of the DHCP range: the byte of the
   * first address, stepped up by one and two in the last byte, and the byte
   * of the last address, stepped down by one in the last byte.
   */
  lemma RangeByte(x: byte, ones: nat, i: nat, w: nat, host: byte, start: byte, end: byte)
    requires 1 <= w && ones + 2 <= 8 * w && i < w
    requires var m := MaskByte(ones, i);
             if i < w - 1 then host == And(x, m) && start == And(x, m) && end == Or(x, Not(m))
             else host as int == And(x, m) as int + 1 && start as int == And(x, m) as int + 2 &&
                  end as int == Or(x, Not(m)) as int - 1
    ensures var m := MaskByte(ones, i);
            And(host, m) == And(x, m) && And(start, m) == And(x, m) && And(end, m) == And(x, m) && start <= end
  {
    if i < w - 1 {
      ByteOrder(x, ones, i);
    } else {
      LastByte(x, ones, w);
    }
  }

  /** The values of addresses that differ from the first and last ones in their last byte. */
  lemma RangeValues(f: IP, l: IP, h: HostAddrs)
    requires |f| == |l| > 0 && |h.host| == |h.start| == |h.end| == |f|
    requires var k := |f| - 1;
             h.host == f[k := h.host[k]] && h.start == f[k := h.start[k]] && h.end == l[k := h.end[k]]
    requires var k := |f| - 1;
             h.host[k] as int == f[k] as int + 1 && h.start[k] as int == f[k] as int + 2 &&
             h.end[k] as int == l[k] as int - 1
    requires forall i :: 0 <= i < |f| ==> h.start[i] <= h.end[i]
    ensures BytesValue(h.host) == BytesValue(f) + 1 && BytesValue(h.start) == BytesValue(f) + 2
    ensures BytesValue(h.end) == BytesValue(l) - 1 && BytesValue(h.start) <= BytesValue(h.end)
  {
    var k := |f| - 1;
    BytesValueLast(f, h.host[k]);
    BytesValueLast(f, h.start[k]);
    BytesValueLast(l, h.end[k]);
    BytesValueMono(h.start, h.end);
  }

  // ----- what the check as written lets through -----

  const Net31 := IPNet([10, 0, 0, 0], [255, 255, 255, 254])

  lemma MaskSize31()
    ensures MaskSize(Net31.mask) == (31, 32)
  {
    var m := Net31.mask;
    assert LeadingOnesByte(254) == 7;
    assert LeadingOnes(m[3..]) == 7;
    assert LeadingOnes(m) == 31;
    assert CIDRMask(31, 32) == m;
  }

  /**
   * 10.0.0.0/31 passes the check as written; the DHCP range derived from it
   * starts at 10.0.0.2, after its end 10.0.0.0, and its start lies outside
   * the network.  The intended check refuses it.
   */
  lemma SlashThirtyOneAccepted()
    ensures MaskSize(Net31.mask) == (31, 32)
    ensures !TooStrictAsWritten(31, 32) && TooStrict(31, 32)
    ensures Hosts(Net31) == Some(HostAddrs([10, 0, 0, 1], [10, 0, 0, 2], [10, 0, 0, 0]))
    ensures BytesValue([10, 0, 0, 2]) > BytesValue([10, 0, 0, 0])
    ensures MaskIP([10, 0, 0, 2], Net31.mask) != Some(Net31.ip)
  {
    MaskSize31();
    AsWrittenRefusesOnlyFullPrefix(31, 32);
    TooStrictIff(31, 32);
    Net31Hosts();
    Net31StartOutside();
    assert [10, 0, 0, 2][3] != Net31.ip[3];
    BytesValueLast([10, 0, 0, 0], 2);
    assert [10, 0, 0, 0][3 := 2] == [10, 0, 0, 2];
  }

  /** The bytes of a /31 mask: 255 keeps a byte, 254 clears its lowest bit. */
  lemma Mask31Bytes(x: byte)
    ensures And(x, 255) == x && Or(x, Not(255)) == x
    ensures And(x, 254) == 2 * (x / 2) && Or(x, Not(254)) == 2 * (x / 2) + 1
  {
    assert Pow2(0) == 1 && Pow2(1) == 2;
    AndMaskByte(x, 0);
    OrNotMaskByte(x, 0);
    AndMaskByte(x, 1);
    OrNotMaskByte(x, 1);
  }

  lemma Net31Hosts()
    ensures Hosts(Net31) == Some(HostAddrs([10, 0, 0, 1], [10, 0, 0, 2], [10, 0, 0, 0]))
  {
    Net31First();
    Net31Last();
    HostsPlain(Net31);
    var f, l := Masked(Net31.ip, Net31.mask), LastIP(Net31);
    assert f[3 := Inc(f[3])] == [10, 0, 0, 1] && f[3 := Inc(Inc(f[3]))] == [10, 0, 0, 2];
    assert l[3 := Dec(l[3])] == [10, 0, 0, 0];
  }

  lemma Net31First()
    ensures Masked(Net31.ip, Net31.mask) == [10, 0, 0, 0]
  {
    var r := Masked(Net31.ip, Net31.mask);
    Mask31Bytes(10);
    assert r[0] == And(10, 255) == 10;
    Mask31Bytes(0);
    assert r[1] == r[2] == And(0, 255) == 0 && r[3] == And(0, 254) == 0;
    assert r == [10, 0, 0, 0];
  }

  lemma Net31Last()
    ensures LastIP(Net31) == [10, 0, 0, 1]
  {
    assert NetIP(Net31.ip) == Net31.ip;
    var l := LastIP(Net31);
    Mask31Bytes(10);
    assert l[0] == Or(10, Not(255)) == 10;
    Mask31Bytes(0);
    assert l[1] == l[2] == Or(0, Not(255)) == 0 && l[3] == Or(0, Not(254)) == 1;
  }

  lemma Net31StartOutside()
    ensures MaskIP([10, 0, 0, 2], Net31.mask) == Some([10, 0, 0, 2])
  {
    MaskIPPlain([10, 0, 0, 2], Net31.mask);
    var r := Masked([10, 0, 0, 2], Net31.mask);
    Mask31Bytes(10);
    assert r[0] == And(10, 255) == 10;
    Mask31Bytes(0);
    assert r[1] == r[2] == And(0, 255) == 0;
    Mask31Bytes(2);
    assert r[3] == And(2, 254) == 2;
    assert r == [10, 0, 0, 2];
  }

  // ----- all addresses -----

  /** The results of a list of steps, in order; the first failing step gives the error. */
  function Collect<T>(rs: seq<Result<T>>): (r: Result<seq<T>>)
    decreases |rs|
  {
    if rs == [] then Ok([])
    else
      match Collect(rs[..|rs| - 1])
      case Err(e) => Err(e)
      case Ok(vs) =>
        match rs[|rs| - 1]
        case Err(e) => Err(e)
        case Ok(v) => Ok(vs + [v])
  }

  /** The collection succeeds exactly when every step does, with one value per step, each the step's own. */
  lemma {:induction false} CollectOk<T>(rs: seq<Result<T>>)
    ensures Collect(rs).Ok? <==> forall k :: 0 <= k < |rs| ==> rs[k].Ok?
    ensures Collect(rs).Ok? ==>
              |Collect(rs).value| == |rs| && forall k :: 0 <= k < |rs| ==> Collect(rs).value[k] == rs[k].value
    decreases |rs|
  {
    if rs != [] {
      var init := rs[..|rs| - 1];
      assert forall i :: 0 <= i < |init| ==> init[i] == rs[i];
      CollectOk(init);
    }
  }

  /** A failing collection fails with the error of its first failing step. */
  lemma {:induction false} CollectErr<T>(rs: seq<Result<T>>)
    requires Collect(rs).Err?
    ensures exists k :: 0 <= k < |rs| && rs[k] == Err(Collect(rs).error) && forall j :: 0 <= j < k ==> rs[j].Ok?
    decreases |rs|
  {
    var init, m := rs[..|rs| - 1], |rs| - 1;
    assert forall i :: 0 <= i < |init| ==> init[i] == rs[i];
    if Collect(init).Err? {
      CollectErr(init);
      var k :| 0 <= k < |init| && init[k] == Err(Collect(init).error) && forall j :: 0 <= j < k ==> init[j].Ok?;
      assert rs[k] == Err(Collect(rs).error);
    } else {
      CollectOk(init);
      assert rs[m] == Err(Collect(rs).error);
    }
  }

  /** Once a prefix fails, the whole collection fails in the same way. */
  lemma {:induction false} CollectPrefixErr<T>(rs: seq<Result<T>>, i: nat)
    requires 0 < i <= |rs| && Collect(rs[..i]).Err?
    ensures Collect(rs) == Collect(rs[..i])
    decreases |rs| - i
  {
    if i < |rs| {
      assert rs[..i + 1][..i] == rs[..i];
      CollectPrefixErr(rs, i + 1);
    } else {
      assert rs[..i] == rs;
    }
  }

  /** One more successful step extends the collected values. */
  lemma CollectStep<T>(rs: seq<Result<T>>, i: nat, vs: seq<T>)
    requires i < |rs| && Collect(rs[..i]) == Ok(vs) && rs[i].Ok?
    ensures Collect(rs[..i + 1]) == Ok(vs + [rs[i].value])
  {
    assert rs[..i + 1][..i] == rs[..i];
  }

  /** A failing step after successful ones gives its error. */
  lemma CollectStepErr<T>(rs: seq<Result<T>>, i: nat, vs: seq<T>)
    requires i < |rs| && Collect(rs[..i]) == Ok(vs) && rs[i].Err?
    ensures Collect(rs[..i + 1]) == Err(rs[i].error)
  {
    assert rs[..i + 1][..i] == rs[..i];
  }

  /** The per-address results. */
  function Results(addresses: seq<Address>): (rs: seq<Result<NetworkIP>>)
    requires AllParsed(addresses)
  {
    seq(|addresses|, k requires 0 <= k < |addresses| => IPFor(addresses[k]))
  }

  /** The `<ip>` elements for a list of addresses, in order; the first failing address gives the error. */
  function IPsFor(addresses: seq<Address>): (r: Result<seq<NetworkIP>>)
    requires AllParsed(addresses)
  {
    Collect(Results(addresses))
  }

  // ----- CreateNetwork -----

  function BridgeRequired(): string {
    "'bridge' must be provided when using the bridged network mode"
  }

  function UnsupportedMode(mode: string): string {
    "unsupported network mode '" + mode + "'"
  }

  /** The modes whose networks get addresses. */
  predicate RoutedMode(mode: string) {
    mode == ClientNetwork.NetModeIsolated || mode == ClientNetwork.NetModeNat || mode == ClientNetwork.NetModeRoute
  }

  /**
   * The definition `CreateNetwork` builds: the default network renamed, with
   * the DNS domain and an STP bridge, its forward element replaced by one of
   * the given mode (so the default's NAT port range never survives), and
   * the mode rules applied.
   */
  function NetworkDefFor(name: string, domain: string, bridge: string, mode: string, addresses: seq<Address>)
    : (r: Result<NetworkDef>)
    requires AllParsed(addresses)
  {
    var d := DefaultNetworkDef().(name := name, domain := Some(domain), bridge := Some(Bridge(bridge, "on")));
    if RoutedMode(mode) then
      var fwd := if mode == ClientNetwork.NetModeIsolated then None else Some(Forward(mode, None));
      if |addresses| == 0 then Ok(d.(forward := fwd))
      else match IPsFor(addresses)
        case Err(e) => Err(e)
        case Ok(ips) => Ok(d.(forward := fwd, ips := ips))
    else if mode == ClientNetwork.NetModeBridge then
      if bridge == "" then Err(Fail(BridgeRequired())) else Ok(d.(forward := None))
    else Err(Fail(UnsupportedMode(mode)))
  }

  /**
   * The mode rules: "none" drops forwarding, "nat" and "route" forward
   * without NAT ports, "bridge" needs a bridge name and drops forwarding,
   * any other mode is refused; addresses are used for the first three modes
   * only; and the resulting network serves DHCP exactly in modes "nat" and
   * "route".
   */
  lemma NetworkModes(name: string, domain: string, bridge: string, mode: string, addresses: seq<Address>)
    requires AllParsed(addresses)
    ensures var r := NetworkDefFor(name, domain, bridge, mode, addresses);
            (r.Ok? ==> r.value.name == name && r.value.domain == Some(domain) &&
                       r.value.bridge == Some(Bridge(bridge, "on")) &&
                       (r.value.forward.Some? ==> r.value.forward.value.natPorts.None?) &&
                       (ClientNetwork.HasDHCP(r.value) <==>
                          (mode == ClientNetwork.NetModeNat || mode == ClientNetwork.NetModeRoute))) &&
            (mode == ClientNetwork.NetModeIsolated && r.Ok? ==> r.value.forward.None?) &&
            (mode == ClientNetwork.NetModeBridge ==>
               (r.Ok? <==> bridge != "") && (r.Ok? ==> r.value.forward.None? && r.value.ips == [])) &&
            (!RoutedMode(mode) && mode != ClientNetwork.NetModeBridge ==> r == Err(Fail(UnsupportedMode(mode)))) &&
            (RoutedMode(mode) ==> (r.Ok? <==> |addresses| == 0 || IPsFor(addresses).Ok?) &&
                                   (r.Ok? ==> r.value.ips == if |addresses| == 0 then [] else IPsFor(addresses).value))
  {
  }

  /** The address loop of `CreateNetwork`: one `<ip>` element per address, stopping at the first error. */
  method NetworkIPs(addresses: seq<Address>) returns (r: Result<seq<NetworkIP>>)
    requires AllParsed(addresses)
    ensures r == IPsFor(addresses)
  {
    var ips: seq<NetworkIP> := [];
    ghost var rs := Results(addresses);
    for i := 0 to |addresses|
      invariant Collect(rs[..i]) == Ok(ips)
    {
      var dni := NetworkIPFor(addresses[i]);
      assert rs[i] == dni;
      if dni.Err? {
        CollectStepErr(rs, i, ips);
        CollectPrefixErr(rs, i + 1);
        return Err(dni.error);
      }
      CollectStep(rs, i, ips);
      ips := ips + [dni.value];
    }
    assert rs[..|addresses|] == rs;
    r := Ok(ips);
  }

  /** Builds the definition step by step, as `CreateNetwork` does before it connects. */
  method BuildNetworkDef(name: string, domain: string, bridge: string, mode: string, addresses: seq<Address>)
    returns (r: Result<NetworkDef>)
    requires AllParsed(addresses)
    ensures r == NetworkDefFor(name, domain, bridge, mode, addresses)
  {
    var networkDef := DefaultNetworkDef();
    networkDef := networkDef.(name := name);
    networkDef := networkDef.(domain := Some(domain));
    networkDef := networkDef.(bridge := Some(Bridge(bridge, "on")));
    networkDef := networkDef.(forward := Some(Forward(mode, None)));
    if mode == ClientNetwork.NetModeIsolated || mode == ClientNetwork.NetModeNat || mode == ClientNetwork.NetModeRoute {
      if mode == ClientNetwork.NetModeIsolated {
        networkDef := networkDef.(forward := None);
      } else if mode == ClientNetwork.NetModeRoute {
        networkDef := networkDef.(forward := Some(networkDef.forward.value.(natPorts := None)));
      }
      if |addresses| > 0 {
        var ips := NetworkIPs(addresses);
        if ips.Err? {
          return Err(ips.error);
        }
        networkDef := networkDef.(ips := ips.value);
      }
    } else if mode == ClientNetwork.NetModeBridge {
      if bridge == "" {
        return Err(Fail(BridgeRequired()));
      }
      networkDef := networkDef.(forward := None);
    } else {
      return Err(Fail(UnsupportedMode(mode)));
    }
    r := Ok(networkDef);
  }

  /** The calls `CreateNetwork` makes once the definition is built. */
  function CreateCalls(name: string, autostart: bool): (plan: seq<Call>)
    ensures Call.NetworkSetAutostart(name) in plan <==> autostart
  {
    [Call.GetURI, Call.NetworkDefineXML(name), Call.NetworkCreate(name), Call.NetworkGetUUID(name)] +
    (if autostart then [Call.NetworkSetAutostart(name)] else [])
  }

  /** The creation calls from step `k` on: step `k`, then those after it. */
  lemma CreateCallsFrom(name: string, autostart: bool, k: nat)
    requires k < 3
    ensures CreateCalls(name, autostart)[k..] == [CreateCalls(name, autostart)[k]] + CreateCalls(name, autostart)[k + 1..]
  {
  }

  /** The text `CreateNetwork` puts before the error of each of its calls. */
  function CreateContext(call: Call): string {
    match call
    case GetURI => "Error retrieving libvirt connection URI"
    case NetworkDefineXML(_) => "Error defining libvirt network"
    case NetworkCreate(_) => "Error crearing libvirt network"
    case NetworkGetUUID(_) => "Error retrieving libvirt network id"
    case NetworkSetAutostart(_) => "Error setting autostart for network"
    case _ => ""
  }

  /** The calls made are the plan up to and including its first failing call, or the whole plan. */
  ghost predicate UpToFirstFailure(c: Connect, plan: seq<Call>, calls: seq<Call>, ok: bool) {
    if ok then calls == plan && forall i :: 0 <= i < |plan| ==> plan[i] !in c.fails
    else 0 < |calls| <= |plan| && calls == plan[..|calls|] && calls[|calls| - 1] in c.fails &&
         forall i :: 0 <= i < |calls| - 1 ==> calls[i] !in c.fails
  }

  /**
   * Defines the network, starts it, reads its UUID and, only when asked to,
   * marks it autostarted; the first failure ends the sequence.
   */
  method StartNetwork(c: Connect, def: NetworkDef, autostart: bool) returns (err: Outcome, ghost calls: seq<Call>)
    modifies c
    ensures c.trace == old(c.trace) + calls
    ensures UpToFirstFailure(c, CreateCalls(def.name, autostart), calls, err.None?)
    ensures err.Some? ==> err == Some(Wrap(CreateContext(calls[|calls| - 1]), ErrorOf(c.fails[calls[|calls| - 1]])))
    ensures err.None? ==>
              c.store == old(c.store).(networks := old(c.store.networks)[def.name := NetworkRecord(def, [], true, autostart)])
    ensures c.store.domains == old(c.store.domains) && c.store.volumes == old(c.store.volumes)
    ensures c.store.networks - {def.name} == old(c.store.networks) - {def.name}
    ensures err.Some? && |calls| <= 2 ==> c.store == old(c.store)
    ensures err.Some? && |calls| > 2 ==>
              c.store == old(c.store).(networks := old(c.store.networks)[def.name := NetworkRecord(def, [], |calls| > 3, false)])
  {
    ghost var plan := CreateCalls(def.name, autostart);
    var uri := c.GetURI();
    calls := [Call.GetURI];
    if uri.Err? {
      UpToFirstFailureHead(c, plan, Call.GetURI);
      return Some(Wrap(CreateContext(Call.GetURI), uri.error)), calls;
    }
    ghost var rest: seq<Call>;
    err, rest := DefineAndActivate(c, def, autostart);
    CreateCallsFrom(def.name, autostart, 0);
    UpToFirstFailureCons(c, Call.GetURI, plan[1..], rest, err.None?);
    calls := calls + rest;
    AppendAssoc(old(c.trace), [Call.GetURI], rest);
  }

  /** Defines the network, then activates it. */
  method DefineAndActivate(c: Connect, def: NetworkDef, autostart: bool) returns (err: Outcome, ghost calls: seq<Call>)
    modifies c
    ensures c.trace == old(c.trace) + calls
    ensures UpToFirstFailure(c, CreateCalls(def.name, autostart)[1..], calls, err.None?)
    ensures err.Some? ==> err == Some(Wrap(CreateContext(calls[|calls| - 1]), ErrorOf(c.fails[calls[|calls| - 1]])))
    ensures err.None? ==>
              c.store == old(c.store).(networks := old(c.store.networks)[def.name := NetworkRecord(def, [], true, autostart)])
    ensures c.store.domains == old(c.store.domains) && c.store.volumes == old(c.store.volumes)
    ensures c.store.networks - {def.name} == old(c.store.networks) - {def.name}
    ensures err.Some? && |calls| == 1 ==> c.store == old(c.store)
    ensures err.Some? && |calls| > 1 ==>
              c.store == old(c.store).(networks := old(c.store.networks)[def.name := NetworkRecord(def, [], |calls| > 2, false)])
  {
    ghost var plan := CreateCalls(def.name, autostart)[1..];
    err := c.NetworkDefineXML(def);
    calls := [Call.NetworkDefineXML(def.name)];
    if err.Some? {
      UpToFirstFailureHead(c, plan, Call.NetworkDefineXML(def.name));
      return Some(Wrap(CreateContext(Call.NetworkDefineXML(def.name)), err.value)), calls;
    }
    ghost var defined := c.store;
    ghost var rest: seq<Call>;
    err, rest := ActivateNetwork(c, def, autostart);
    StoreSteps(old(c.store), defined, c.store, def.name, NetworkRecord(def, [], false, false),
               NetworkRecord(def, [], true, autostart), err.None?);
    if err.Some? {
      StoreOverwrite(old(c.store), def.name, NetworkRecord(def, [], false, false),
                     NetworkRecord(def, [], |rest| > 1, false));
    }
    CreateCallsFrom(def.name, autostart, 1);
    UpToFirstFailureCons(c, Call.NetworkDefineXML(def.name), CreateCalls(def.name, autostart)[2..], rest, err.None?);
    calls := calls + rest;
    AppendAssoc(old(c.trace), [Call.NetworkDefineXML(def.name)], rest);
  }

  /** Two steps on one network of the store: the second overwrites the first when it succeeds, and neither touches anything else. */
  lemma StoreSteps(s0: Store, s1: Store, s2: Store, name: string, r1: NetworkRecord, r2: NetworkRecord, ok: bool)
    requires s1 == s0.(networks := s0.networks[name := r1])
    requires name in s1.networks
    requires ok ==> s2 == s1.(networks := s1.networks[name := r2])
    requires s2.domains == s1.domains && s2.volumes == s1.volumes && s2.networks - {name} == s1.networks - {name}
    ensures ok ==> s2 == s0.(networks := s0.networks[name := r2])
    ensures s2.domains == s0.domains && s2.volumes == s0.volumes && s2.networks - {name} == s0.networks - {name}
  {
    assert s1.networks - {name} == s0.networks - {name};
    if ok {
      assert s1.networks[name := r2] == s0.networks[name := r2];
    }
  }

  /** A network record written twice: the second write is what stays. */
  lemma StoreOverwrite(s0: Store, name: string, r1: NetworkRecord, r2: NetworkRecord)
    ensures var s1 := s0.(networks := s0.networks[name := r1]);
            s1.(networks := s1.networks[name := r2]) == s0.(networks := s0.networks[name := r2])
  {
    assert s0.networks[name := r1][name := r2] == s0.networks[name := r2];
  }

  /** Starts a defined network, reads its UUID and, only when asked to, marks it autostarted. */
  method ActivateNetwork(c: Connect, def: NetworkDef, autostart: bool) returns (err: Outcome, ghost calls: seq<Call>)
    requires def.name in c.store.networks && c.store.networks[def.name] == NetworkRecord(def, [], false, false)
    modifies c
    ensures c.trace == old(c.trace) + calls
    ensures UpToFirstFailure(c, CreateCalls(def.name, autostart)[2..], calls, err.None?)
    ensures err.Some? ==> err == Some(Wrap(CreateContext(calls[|calls| - 1]), ErrorOf(c.fails[calls[|calls| - 1]])))
    ensures err.None? ==>
              c.store == old(c.store).(networks := old(c.store.networks)[def.name := NetworkRecord(def, [], true, autostart)])
    ensures c.store.domains == old(c.store.domains) && c.store.volumes == old(c.store.volumes)
    ensures c.store.networks - {def.name} == old(c.store.networks) - {def.name}
    ensures err.Some? ==>
              c.store == old(c.store).(networks := old(c.store.networks)[def.name := NetworkRecord(def, [], |calls| > 1, false)])
  {
    ghost var plan := CreateCalls(def.name, autostart)[2..];
    err := c.NetworkCreate(def.name);
    calls := [Call.NetworkCreate(def.name)];
    if err.Some? {
      UpToFirstFailureHead(c, plan, Call.NetworkCreate(def.name));
      return Some(Wrap(CreateContext(Call.NetworkCreate(def.name)), err.value)), calls;
    }
    ghost var started := c.store;
    ghost var rest: seq<Call>;
    err, rest := IdentifyNetwork(c, def, autostart);
    StoreSteps(old(c.store), started, c.store, def.name, NetworkRecord(def, [], true, false),
               NetworkRecord(def, [], true, autostart), err.None?);
    CreateCallsFrom(def.name, autostart, 2);
    UpToFirstFailureCons(c, Call.NetworkCreate(def.name), CreateCalls(def.name, autostart)[3..], rest, err.None?);
    calls := calls + rest;
    AppendAssoc(old(c.trace), [Call.NetworkCreate(def.name)], rest);
  }

  /** Reads the UUID of a started network and, only when asked to, marks it autostarted. */
  method IdentifyNetwork(c: Connect, def: NetworkDef, autostart: bool) returns (err: Outcome, ghost calls: seq<Call>)
    requires def.name in c.store.networks && c.store.networks[def.name] == NetworkRecord(def, [], true, false)
    modifies c
    ensures c.trace == old(c.trace) + calls
    ensures UpToFirstFailure(c, CreateCalls(def.name, autostart)[3..], calls, err.None?)
    ensures err.Some? ==> err == Some(Wrap(CreateContext(calls[|calls| - 1]), ErrorOf(c.fails[calls[|calls| - 1]])))
    ensures err.None? ==>
              c.store == old(c.store).(networks := old(c.store.networks)[def.name := NetworkRecord(def, [], true, autostart)])
    ensures c.store.domains == old(c.store.domains) && c.store.volumes == old(c.store.volumes)
    ensures c.store.networks - {def.name} == old(c.store.networks) - {def.name}
    ensures err.Some? ==> c.store == old(c.store)
  {
    var id := c.NetworkGetUUID(def.name);
    calls := [Call.NetworkGetUUID(def.name)];
    if id.Err? {
      return Some(Wrap(CreateContext(Call.NetworkGetUUID(def.name)), id.error)), calls;
    }
    if autostart {
      err := c.NetworkSetAutostart(def.name, autostart);
      calls := calls + [Call.NetworkSetAutostart(def.name)];
      if err.Some? {
        return Some(Wrap(CreateContext(Call.NetworkSetAutostart(def.name)), err.value)), calls;
      }
    } else {
      assert old(c.store).networks[def.name := NetworkRecord(def, [], true, autostart)] == old(c.store).networks;
    }
    assert calls == CreateCalls(def.name, autostart)[3..];
    err := None;
  }

  /**
   * `CreateNetwork(name, domain, bridge, mode, addresses, autostart, client)`:
   * a definition the mode rules or an address refuse is an error before any
   * call; otherwise the network is defined and started.
   */
  method CreateNetwork(c: Connect, name: string, domain: string, bridge: string, mode: string,
                       addresses: seq<Address>, autostart: bool) returns (err: Outcome, ghost calls: seq<Call>)
    requires AllParsed(addresses)
    modifies c
    ensures c.trace == old(c.trace) + calls
    ensures NetworkDefFor(name, domain, bridge, mode, addresses).Err? ==>
              err == Some(NetworkDefFor(name, domain, bridge, mode, addresses).error) &&
              calls == [] && c.store == old(c.store)
    ensures NetworkDefFor(name, domain, bridge, mode, addresses).Ok? ==>
              UpToFirstFailure(c, CreateCalls(name, autostart), calls, err.None?)
    ensures err.None? ==>
              NetworkDefFor(name, domain, bridge, mode, addresses).Ok? &&
              c.store == old(c.store).(networks := old(c.store.networks)[name := NetworkRecord(
                           NetworkDefFor(name, domain, bridge, mode, addresses).value, [], true, autostart)])
    ensures err.Some? && Call.NetworkCreate(name) !in calls ==> c.store == old(c.store)
    ensures err.Some? && Call.NetworkCreate(name) in calls ==>
              NetworkDefFor(name, domain, bridge, mode, addresses).Ok? &&
              c.store == old(c.store).(networks := old(c.store.networks)[name := NetworkRecord(
                           NetworkDefFor(name, domain, bridge, mode, addresses).value, [],
                           calls[|calls| - 1] != Call.NetworkCreate(name), false)])
    ensures c.store.domains == old(c.store.domains) && c.store.volumes == old(c.store.volumes)
    ensures c.store.networks - {name} == old(c.store.networks) - {name}
  {
    var def := BuildNetworkDef(name, domain, bridge, mode, addresses);
    if def.Err? {
      return Some(def.error), [];
    }
    assert def.value.name == name;
    err, calls := StartNetwork(c, def.value, autostart);
    if err.Some? {
      CreateCallsPrefix(name, autostart, calls);
    }
  }

  /** Where a failed creation stopped: `NetworkCreate` was reached after the first two calls, and it was the last one only as the third. */
  lemma CreateCallsPrefix(name: string, autostart: bool, calls: seq<Call>)
    requires 0 < |calls| <= |CreateCalls(name, autostart)|
    requires calls == CreateCalls(name, autostart)[..|calls|]
    ensures Call.NetworkCreate(name) in calls <==> |calls| > 2
    ensures |calls| > 2 ==> (calls[|calls| - 1] != Call.NetworkCreate(name) <==> |calls| > 3)
  {
    var plan := CreateCalls(name, autostart);
    if |calls| <= 2 {
      assert calls == [Call.GetURI] || calls == [Call.GetURI, Call.NetworkDefineXML(name)];
    } else {
      assert calls[2] == Call.NetworkCreate(name);
      assert calls[|calls| - 1] == plan[|calls| - 1];
    }
  }

  // ----- DeleteNetwork -----

  /** The calls `DeleteNetwork` makes on a network it finds, active or not. */
  function DeleteCalls(name: string, active: bool): (plan: seq<Call>)
    ensures Call.NetworkCreate(name) in plan <==> !active
  {
    [Call.NetworkLookupByName(name)] + RemoveCalls(name, active)
  }

  /** The calls after the lookup: the activity check, a start of an inactive network, destroy and undefine. */
  function RemoveCalls(name: string, active: bool): (plan: seq<Call>)
    ensures Call.NetworkCreate(name) in plan <==> !active
  {
    [Call.NetworkIsActive(name)] + (if active then [] else [Call.NetworkCreate(name)]) + DestroyCalls(name)
  }

  function DestroyCalls(name: string): seq<Call> {
    [Call.NetworkDestroy(name), Call.NetworkUndefine(name)]
  }

  /**
   * The error `DeleteNetwork` reports when one of its calls fails: the
   * call's context, then its error.  The formats of the lookup and of the
   * restart put the error after a space; the others after a colon.
   */
  function DeleteError(call: Call, cause: Error): Error {
    match call
    case NetworkLookupByName(_) => Follow(DeleteContext(call), cause)
    case NetworkCreate(_) => Follow(DeleteContext(call), cause)
    case _ => Wrap(DeleteContext(call), cause)
  }

  /** The text of a deletion error: the call's context, a space or ": ", then the cause's text. */
  lemma DeleteErrorText(call: Call, cause: Error)
    ensures Message(DeleteError(call, cause)) ==
              DeleteContext(call) + (if call.NetworkLookupByName? || call.NetworkCreate? then " " else ": ") + Message(cause)
  {
    if call.NetworkLookupByName? || call.NetworkCreate? {
      assert DeleteError(call, cause) == Follow(DeleteContext(call), cause);
    } else {
      assert DeleteError(call, cause) == Wrap(DeleteContext(call), cause);
    }
  }

  /** The text `DeleteNetwork` puts before the error of each of its calls. */
  function DeleteContext(call: Call): string {
    match call
    case NetworkLookupByName(_) => "When destroying libvirt network: error retrieving"
    case NetworkIsActive(_) => "Couldn't determine if network is active"
    case NetworkCreate(_) => "Cannot restart an inactive network"
    case NetworkDestroy(_) => "When destroying libvirt network"
    case NetworkUndefine(_) => "Couldn't undefine libvirt network"
    case _ => ""
  }

  /** A sequence whose first call fails stops there. */
  lemma UpToFirstFailureHead(c: Connect, plan: seq<Call>, x: Call)
    requires 0 < |plan| && plan[0] == x && x in c.fails
    ensures UpToFirstFailure(c, plan, [x], false)
  {
  }

  /** A call that succeeded, followed by a sequence that stops at its first failure. */
  lemma UpToFirstFailureCons(c: Connect, x: Call, plan: seq<Call>, calls: seq<Call>, ok: bool)
    requires x !in c.fails && UpToFirstFailure(c, plan, calls, ok)
    ensures UpToFirstFailure(c, [x] + plan, [x] + calls, ok)
  {
    if ok {
      assert forall i :: 0 < i < |plan| + 1 ==> ([x] + plan)[i] == plan[i - 1];
    } else {
      assert ([x] + plan)[..|calls| + 1] == [x] + calls;
      assert forall i :: 0 < i < |calls| + 1 ==> ([x] + calls)[i] == calls[i - 1];
    }
  }

  /** The error `DeleteNetwork` returns: the failure of the last call made, under that call's context. */
  ghost predicate DeleteReported(c: Connect, calls: seq<Call>, err: Outcome) {
    err.Some? ==> 0 < |calls| && calls[|calls| - 1] in c.fails &&
                  err == Some(DeleteError(calls[|calls| - 1], ErrorOf(c.fails[calls[|calls| - 1]])))
  }

  /** What a deletion step leaves in the store: the network gone on success, everything else as it was. */
  ghost predicate NetworkRemoval(s0: Store, s1: Store, name: string, ok: bool) {
    (ok ==> s1 == s0.(networks := s0.networks - {name})) &&
    s1.domains == s0.domains && s1.volumes == s0.volumes && s1.networks - {name} == s0.networks - {name}
  }

  lemma DeleteReportedCons(c: Connect, x: Call, calls: seq<Call>, err: Outcome)
    requires DeleteReported(c, calls, err)
    ensures DeleteReported(c, [x] + calls, err)
  {
  }

  /** The end of the deletion of an active network: destroy it, then undefine it. */
  method DestroyNetwork(c: Connect, name: string) returns (err: Outcome, ghost calls: seq<Call>)
    requires name in c.store.networks && c.store.networks[name].active
    modifies c
    ensures c.trace == old(c.trace) + calls
    ensures UpToFirstFailure(c, DestroyCalls(name), calls, err.None?)
    ensures DeleteReported(c, calls, err)
    ensures NetworkRemoval(old(c.store), c.store, name, err.None?)
  {
    err := c.NetworkDestroy(name);
    calls := [Call.NetworkDestroy(name)];
    if err.Some? {
      return Some(DeleteError(Call.NetworkDestroy(name), err.value)), calls;
    }
    err := c.NetworkUndefine(name);
    calls := calls + [Call.NetworkUndefine(name)];
    if err.Some? {
      return Some(DeleteError(Call.NetworkUndefine(name), err.value)), calls;
    }
  }

  /** The deletion of a network the lookup found: an inactive one is started first, because libvirt destroys only active networks. */
  method RemoveNetwork(c: Connect, name: string) returns (err: Outcome, ghost calls: seq<Call>)
    requires name in c.store.networks
    modifies c
    ensures c.trace == old(c.trace) + calls
    ensures UpToFirstFailure(c, RemoveCalls(name, old(c.store.networks[name].active)), calls, err.None?)
    ensures DeleteReported(c, calls, err)
    ensures NetworkRemoval(old(c.store), c.store, name, err.None?)
  {
    ghost var active0 := c.store.networks[name].active;
    var active := c.NetworkIsActive(name);
    calls := [Call.NetworkIsActive(name)];
    ghost var plan := (if active0 then [] else [Call.NetworkCreate(name)]) + DestroyCalls(name);
    assert RemoveCalls(name, active0) == [Call.NetworkIsActive(name)] + plan;
    if active.Err? {
      UpToFirstFailureHead(c, RemoveCalls(name, active0), Call.NetworkIsActive(name));
      return Some(DeleteError(Call.NetworkIsActive(name), active.error)), calls;
    }
    ghost var rest: seq<Call>;
    err, rest := DestroyAsFound(c, name, active.value);
    UpToFirstFailureCons(c, Call.NetworkIsActive(name), plan, rest, err.None?);
    DeleteReportedCons(c, Call.NetworkIsActive(name), rest, err);
    calls := calls + rest;
    AppendAssoc(old(c.trace), [Call.NetworkIsActive(name)], rest);
  }

  /** Destroys and undefines a network whose activity is known, starting it first when it is inactive. */
  method DestroyAsFound(c: Connect, name: string, active: bool) returns (err: Outcome, ghost calls: seq<Call>)
    requires name in c.store.networks && c.store.networks[name].active == active
    modifies c
    ensures c.trace == old(c.trace) + calls
    ensures UpToFirstFailure(c, (if active then [] else [Call.NetworkCreate(name)]) + DestroyCalls(name), calls, err.None?)
    ensures DeleteReported(c, calls, err)
    ensures NetworkRemoval(old(c.store), c.store, name, err.None?)
  {
    if !active {
      err, calls := RestartAndDestroy(c, name);
    } else {
      assert [] + DestroyCalls(name) == DestroyCalls(name);
      err, calls := DestroyNetwork(c, name);
    }
  }

  /** An inactive network is started, then destroyed and undefined. */
  method RestartAndDestroy(c: Connect, name: string) returns (err: Outcome, ghost calls: seq<Call>)
    requires name in c.store.networks && !c.store.networks[name].active
    modifies c
    ensures c.trace == old(c.trace) + calls
    ensures UpToFirstFailure(c, [Call.NetworkCreate(name)] + DestroyCalls(name), calls, err.None?)
    ensures DeleteReported(c, calls, err)
    ensures NetworkRemoval(old(c.store), c.store, name, err.None?)
  {
    err := c.NetworkCreate(name);
    calls := [Call.NetworkCreate(name)];
    if err.Some? {
      UpToFirstFailureHead(c, [Call.NetworkCreate(name)] + DestroyCalls(name), Call.NetworkCreate(name));
      return Some(DeleteError(Call.NetworkCreate(name), err.value)), calls;
    }
    ghost var started := c.store;
    ghost var rest: seq<Call>;
    err, rest := DestroyNetwork(c, name);
    RemovalAfterStart(old(c.store), started, c.store, name, err.None?);
    UpToFirstFailureCons(c, Call.NetworkCreate(name), DestroyCalls(name), rest, err.None?);
    DeleteReportedCons(c, Call.NetworkCreate(name), rest, err);
    calls := calls + rest;
    AppendAssoc(old(c.trace), [Call.NetworkCreate(name)], rest);
  }

  /** Starting a network changes only its record, which a removal then drops. */
  lemma RemovalAfterStart(s0: Store, s1: Store, s2: Store, name: string, ok: bool)
    requires name in s0.networks
    requires s1 == s0.(networks := s0.networks[name := s0.networks[name].(active := true)])
    requires NetworkRemoval(s1, s2, name, ok)
    ensures NetworkRemoval(s0, s2, name, ok)
  {
    assert s1.networks - {name} == s0.networks - {name};
  }

  /**
   * `DeleteNetwork(name, client)`: looks the network up, then removes it;
   * the first failure ends the sequence.
   */
  method DeleteNetwork(c: Connect, name: string) returns (err: Outcome, ghost calls: seq<Call>)
    modifies c
    ensures c.trace == old(c.trace) + calls
    ensures name !in old(c.store.networks) ==>
              calls == [Call.NetworkLookupByName(name)] && c.store == old(c.store) &&
              err == Some(DeleteError(Call.NetworkLookupByName(name),
                                      c.Effect(Call.NetworkLookupByName(name), false, NoNetwork).value))
    ensures name in old(c.store.networks) ==>
              UpToFirstFailure(c, DeleteCalls(name, old(c.store.networks[name].active)), calls, err.None?)
    ensures name in old(c.store.networks) ==> DeleteReported(c, calls, err)
    ensures err.None? ==> name in old(c.store.networks)
    ensures NetworkRemoval(old(c.store), c.store, name, err.None?)
  {
    err := c.NetworkLookupByName(name);
    calls := [Call.NetworkLookupByName(name)];
    if err.Some? {
      if name in c.store.networks {
        UpToFirstFailureHead(c, DeleteCalls(name, c.store.networks[name].active), Call.NetworkLookupByName(name));
      }
      return Some(DeleteError(Call.NetworkLookupByName(name), err.value)), calls;
    }
    ghost var active0 := c.store.networks[name].active;
    ghost var rest: seq<Call>;
    err, rest := RemoveNetwork(c, name);
    UpToFirstFailureCons(c, Call.NetworkLookupByName(name), RemoveCalls(name, active0), rest, err.None?);
    DeleteReportedCons(c, Call.NetworkLookupByName(name), rest, err);
    calls := calls + rest;
    AppendAssoc(old(c.trace), [Call.NetworkLookupByName(name)], rest);
  }

  /** Concatenation regrouped, for a trace extended in two steps. */
  lemma AppendAssoc<T>(a: seq<T>, b: seq<T>, d: seq<T>)
    ensures a + b + d == a + (b + d)
  {
  }

}
