/**
 * Network identity in the newest client (pkg/cloud/libvirt/client/network.go):
 * whether a network serves DHCP, static DHCP host entries, random MAC
 * addresses, and the table of reserved lease addresses.
 */
module ClientNetwork {
  import opened Wrappers
  import opened Strs
  import opened LibvirtXml
  import opened Hypervisor

  const NetModeIsolated := "none"
  const NetModeNat := "nat"
  const NetModeRoute := "route"
  const NetModeBridge := "bridge"

  /** The host number worker addresses are allocated from. */
  const WorkerIPCidr: nat := 51

  /** `HasDHCP(net)`: the network forwards in mode "nat", "route" or the default "". */
  predicate HasDHCP(net: NetworkDef) {
    net.forward.Some? && (net.forward.value.mode == "nat" || net.forward.value.mode == "route" || net.forward.value.mode == "")
  }

  /**
   * Of the four network modes the provider knows, exactly NAT and routed
   * networks have a libvirt DHCP server; an isolated network ("none") as
   * described by its forward element does not, and no network without a
   * forward element does.
   */
  lemma HasDHCPModes(net: NetworkDef)
    requires net.forward.Some? && net.forward.value.mode in {NetModeIsolated, NetModeNat, NetModeRoute, NetModeBridge}
    ensures HasDHCP(net) <==> net.forward.value.mode == NetModeNat || net.forward.value.mode == NetModeRoute
  {
  }

  lemma HasDHCPWithoutForward(net: NetworkDef)
    requires net.forward.None?
    ensures !HasDHCP(net)
  {
  }

  // ----- static DHCP hosts -----

  /** The errors after which `updateOrAddHost` adds the host instead: libvirt errors with code ERR_OPERATION_INVALID. */
  predicate AddsAfter(err: Outcome) {
    err.Some? && err.value.Virt? && err.value.code == OperationInvalid
  }

  /**
   * `updateOrAddHost(n, ip, mac, name)`: modifies the static host with the
   * same MAC; when libvirt answers ERR_OPERATION_INVALID (there is no such
   * host) the host is appended instead, and any other outcome of the modify
   * is the result.
   */
  method UpdateOrAddHost(c: Connect, network: string, ip: string, mac: string, name: string) returns (err: Outcome)
    modifies c
    ensures !AddsAfter(old(c.ModifyAnswer(network, mac))) ==>
              err == old(c.ModifyAnswer(network, mac)) && c.trace == old(c.trace) + [Call.NetworkUpdateModify(network)]
    ensures AddsAfter(old(c.ModifyAnswer(network, mac))) ==>
              c.trace == old(c.trace) + [Call.NetworkUpdateModify(network), Call.NetworkUpdateAdd(network)] &&
              err == c.Effect(Call.NetworkUpdateAdd(network), network in old(c.store.networks), NoNetwork)
    ensures err == None ==>
              (network in c.store.networks && DHCPHost(ip, mac, name) in c.store.networks[network].hosts)
    ensures err.Some? ==> c.store == old(c.store)
    ensures err.None? ==>
              network in old(c.store.networks) && network in c.store.networks &&
              c.store == old(c.store).(networks := old(c.store.networks)[network := old(c.store.networks)[network].(
                                         hosts := c.store.networks[network].hosts)])
    ensures err.None? && !AddsAfter(old(c.ModifyAnswer(network, mac))) ==>
              network in old(c.store.networks) && c.HostWithMac(old(c.store.networks)[network].hosts, mac).Some? &&
              c.store.networks[network].hosts ==
                old(c.store.networks)[network].hosts[c.HostWithMac(old(c.store.networks)[network].hosts, mac).value :=
                                                      DHCPHost(ip, mac, name)]
    ensures err.None? && AddsAfter(old(c.ModifyAnswer(network, mac))) ==>
              network in old(c.store.networks) &&
              c.store.networks[network].hosts == old(c.store.networks)[network].hosts + [DHCPHost(ip, mac, name)]
    ensures c.store.domains == old(c.store.domains) && c.store.volumes == old(c.store.volumes)
    ensures c.store.networks - {network} == old(c.store.networks) - {network}
    ensures forall n :: n != network ==> (n in c.store.networks <==> n in old(c.store.networks))
  {
    var host := DHCPHost(ip, mac, name);
    err := c.NetworkUpdateModify(network, host);
    if AddsAfter(err) {
      err := c.NetworkUpdateAdd(network, host);
      if err.None? {
        assert c.store.networks[network].hosts[|c.store.networks[network].hosts| - 1] == host;
      }
    } else if err.None? {
      assert c.store.networks[network].hosts[c.HostWithMac(old(c.store.networks[network].hosts), mac).value] == host;
    }
  }

  // ----- MAC addresses -----

  /** The text of a byte as two lower-case hexadecimal digits, and back. */
  function HexByte(b: bv8, hi: bool): char {
    if hi then HexDigit(b as int / 16) else HexDigit(b as int % 16)
  }

  /** `%02x:%02x:%02x:%02x:%02x:%02x` of six bytes. */
  function FormatMac(o: seq<bv8>): (s: string)
    requires |o| == 6
  {
    seq(17, i requires 0 <= i < 17 => if i % 3 == 2 then ':' else HexByte(o[i / 3], i % 3 == 0))
  }

  /** Six two-digit lower-case hexadecimal groups separated by ':'. */
  predicate IsMac(s: string) {
    |s| == 17 && forall i :: 0 <= i < 17 ==> if i % 3 == 2 then s[i] == ':' else IsLowerHex(s[i])
  }

  /** The six bytes a MAC text stands for. */
  function ParseMac(s: string): (o: seq<bv8>)
    requires IsMac(s)
    ensures |o| == 6
  {
    seq(6, k requires 0 <= k < 6 => (HexValue(s[3 * k]) * 16 + HexValue(s[3 * k + 1])) as bv8)
  }

  lemma IntOfByte(b: bv8)
    ensures 0 <= b as int < 256 && (b as int) as bv8 == b
  {
  }

  lemma HexHigh(b: bv8)
    ensures IsLowerHex(HexByte(b, true)) && HexValue(HexByte(b, true)) == b as int / 16
  {
  }

  lemma HexLow(b: bv8)
    ensures IsLowerHex(HexByte(b, false)) && HexValue(HexByte(b, false)) == b as int % 16
  {
  }

  lemma DivMod16Sum(v: int)
    ensures (v / 16) * 16 + v % 16 == v
  {
  }

  /** The two digits of a byte are hexadecimal digits that read back as the byte. */
  lemma HexByteValue(b: bv8)
    ensures IsLowerHex(HexByte(b, true)) && IsLowerHex(HexByte(b, false))
    ensures (HexValue(HexByte(b, true)) * 16 + HexValue(HexByte(b, false))) as bv8 == b
  {
    HexHigh(b);
    HexLow(b);
    DivMod16Sum(b as int);
    IntOfByte(b);
  }

  lemma FormatMacIsMac(o: seq<bv8>)
    requires |o| == 6
    ensures IsMac(FormatMac(o))
  {
    var s := FormatMac(o);
    forall i | 0 <= i < 17 ensures if i % 3 == 2 then s[i] == ':' else IsLowerHex(s[i]) {
      if i % 3 != 2 {
        HexByteValue(o[i / 3]);
      }
    }
  }

  lemma FormatMacGroup(o: seq<bv8>, k: nat)
    requires |o| == 6 && k < 6
    ensures FormatMac(o)[3 * k] == HexByte(o[k], true) && FormatMac(o)[3 * k + 1] == HexByte(o[k], false)
  {
    assert (3 * k) / 3 == k && (3 * k) % 3 == 0;
    assert (3 * k + 1) / 3 == k && (3 * k + 1) % 3 == 1;
  }

  /** Formatting a MAC gives a well-formed MAC text that reads back as the same six bytes. */
  lemma ParseFormatMac(o: seq<bv8>)
    requires |o| == 6
    ensures IsMac(FormatMac(o)) && ParseMac(FormatMac(o)) == o
  {
    FormatMacIsMac(o);
    var s := FormatMac(o);
    forall k | 0 <= k < 6 ensures ParseMac(s)[k] == o[k] {
      FormatMacGroup(o, k);
      HexByteValue(o[k]);
    }
  }

  /**
   * `randomMACAddress()` given the six bytes `rand.Read` produced (or its
   * error): the first byte is forced to a locally administered unicast
   * address, 0xfe (reserved by libvirt) is replaced by 0xee, and the bytes
   * are written as a MAC.
   */
  method RandomMACAddress(buf: seq<bv8>, readErr: Outcome) returns (r: Result<string>)
    requires |buf| == 6
    ensures readErr.Some? ==> r == Err(readErr.value)
    ensures readErr.None? ==> r.Ok? && IsMac(r.value)
    ensures r.Ok? ==> ParseMac(r.value)[1..] == buf[1..]
    ensures r.Ok? ==> ParseMac(r.value)[0] & 1 == 0 && ParseMac(r.value)[0] & 2 == 2 && ParseMac(r.value)[0] != 0xfe
    ensures r.Ok? && buf[0] & 0xfc != 0xfc ==> ParseMac(r.value)[0] & 0xfc == buf[0] & 0xfc
    ensures r.Ok? && buf[0] & 0xfc == 0xfc ==> ParseMac(r.value)[0] == 0xee
  {
    if readErr.Some? {
      return Err(readErr.value);
    }
    var b0 := buf[0];
    b0 := (b0 | 2) & 0xfe;
    b0 := b0 | 2;
    if b0 == 0xfe {
      b0 := 0xee;
    }
    var o := [b0] + buf[1..];
    ParseFormatMac(o);
    r := Ok(FormatMac(o));
  }

  // ----- reserved leases -----

  /** The addresses of a list of DHCP leases. */
  function LeaseIPs(leases: seq<Lease>): (ips: set<string>)
    ensures forall i :: 0 <= i < |leases| ==> leases[i].ipaddr in ips
    ensures forall ip :: ip in ips ==> exists i :: 0 <= i < |leases| && leases[i].ipaddr == ip
  {
    set i | 0 <= i < |leases| :: leases[i].ipaddr
  }

  /** One more lease adds its address. */
  lemma LeaseIPsStep(leases: seq<Lease>, i: nat)
    requires i < |leases|
    ensures LeaseIPs(leases[..i + 1]) == LeaseIPs(leases[..i]) + {leases[i].ipaddr}
  {
    var a, b := leases[..i + 1], leases[..i];
    assert a == b + [leases[i]];
    forall ip | ip in LeaseIPs(a) ensures ip in LeaseIPs(b) + {leases[i].ipaddr} {
      var j :| 0 <= j < |a| && a[j].ipaddr == ip;
      if j < i { assert b[j] == a[j]; }
    }
    forall ip | ip in LeaseIPs(b) ensures ip in LeaseIPs(a) {
      var j :| 0 <= j < |b| && b[j].ipaddr == ip;
      assert a[j] == b[j];
    }
    assert a[i] == leases[i];
  }

  /** `Leases`: the addresses already taken on a network, each mapped to "". */
  class Leases {
    var items: map<string, string>

    constructor (items0: map<string, string>)
      ensures items == items0
    {
      items := items0;
    }

    /**
     * `FillReservedLeases(leases, libvirtLeases)`: every lease's address
     * becomes a key mapped to ""; the other keys are kept as they were.
     */
    method FillReservedLeases(libvirtLeases: seq<Lease>)
      modifies this
      ensures items.Keys == old(items).Keys + LeaseIPs(libvirtLeases)
      ensures forall ip :: ip in items ==> items[ip] == if ip in LeaseIPs(libvirtLeases) then "" else old(items)[ip]
    {
      var i := 0;
      while i < |libvirtLeases|
        invariant 0 <= i <= |libvirtLeases|
        invariant items.Keys == old(items).Keys + LeaseIPs(libvirtLeases[..i])
        invariant forall ip :: ip in items ==> items[ip] == if ip in LeaseIPs(libvirtLeases[..i]) then "" else old(items)[ip]
      {
        LeaseIPsStep(libvirtLeases, i);
        items := items[libvirtLeases[i].ipaddr := ""];
        i := i + 1;
      }
      assert libvirtLeases[..i] == libvirtLeases;
    }
  }
}
