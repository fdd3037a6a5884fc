/**
 * The domain-definition builder of the newest client
 * (pkg/cloud/libvirt/client/domain.go): the default devices, the guest and
 * machine lookup in the host capabilities, disk naming, the Ignition device,
 * firmware, the name/memory/vCPU checks and the network interface with its
 * reserved address.
 */
module ClientDomain {
  import opened Wrappers
  import opened Strs
  import opened Cidr
  import opened LibvirtXml
  import opened Hypervisor
  import ClientNetwork

  // ----- default devices -----

  /** System Z and PowerPC hosts: no SPICE graphics and no firmware-configuration device. */
  predicate IsS390OrPPC64(arch: string) {
    HasPrefix(arch, "s390") || HasPrefix(arch, "ppc64")
  }

  /**
   * `newDevicesDef` for a host of architecture `arch`: the guest-agent
   * channel, a virtio RNG and a virtio console on port 0 always; SPICE
   * graphics with automatic port exactly when the host is neither s390* nor
   * ppc64*.
   */
  function DevicesFor(arch: string): (ds: Devices)
    ensures ds.channels == [GuestAgentChannel] && ds.rngs == ["virtio"] && ds.consoles == [Console("virtio", 0)]
    ensures |ds.graphics| > 0 <==> !IsS390OrPPC64(arch)
    ensures forall g :: g in ds.graphics ==> g == Spice("yes")
    ensures ds.disks == [] && ds.interfaces == [] && ds.emulator == ""
  {
    Devices("", [], [], [GuestAgentChannel], ["virtio"], [Console("virtio", 0)],
            if IsS390OrPPC64(arch) then [] else [Spice("yes")])
  }

  /** `getHostArchitecture`: the `<host><cpu><arch>` of the capabilities. */
  method GetHostArchitecture(c: Connect) returns (r: Result<string>)
    modifies c
    ensures c.trace == old(c.trace) + [Call.GetCapabilities] && c.store == old(c.store)
    ensures Call.GetCapabilities in c.fails ==> r == Err(ErrorOf(c.fails[Call.GetCapabilities]))
    ensures Call.GetCapabilities !in c.fails ==> r == Ok(c.caps.hostArch)
  {
    var caps := c.GetCapabilities();
    if caps.Err? {
      return Err(caps.error);
    }
    r := Ok(caps.value.hostArch);
  }

  /** `newDevicesDef(virConn)`: an architecture that cannot be read is logged and taken as "". */
  method NewDevicesDef(c: Connect) returns (ds: Devices)
    modifies c
    ensures c.trace == old(c.trace) + [Call.GetCapabilities] && c.store == old(c.store)
    ensures ds == DevicesFor(if Call.GetCapabilities in c.fails then "" else c.caps.hostArch)
  {
    var arch := GetHostArchitecture(c);
    ds := DevicesFor(if arch.Ok? then arch.value else "");
  }

  // ----- guests and machines -----

  predicate GuestMatches(g: CapsGuest, arch: string, virttype: string) {
    g.archName == arch && g.osType == virttype
  }

  /** The index of the first guest for `arch`/`virttype`. */
  function FindGuest(guests: seq<CapsGuest>, arch: string, virttype: string): (i: Option<nat>)
    ensures i.Some? ==> i.value < |guests| && GuestMatches(guests[i.value], arch, virttype)
    ensures i.Some? ==> forall j :: 0 <= j < i.value ==> !GuestMatches(guests[j], arch, virttype)
    ensures i.None? ==> forall j :: 0 <= j < |guests| ==> !GuestMatches(guests[j], arch, virttype)
  {
    if |guests| == 0 then None
    else if GuestMatches(guests[0], arch, virttype) then Some(0)
    else
      var rest := FindGuest(guests[1..], arch, virttype);
      if rest.Some? then Some(rest.value + 1) else None
  }

  /** The error for capabilities without a guest for `arch`/`virttype`. */
  function NoGuestError(arch: string, virttype: string): Error {
    Fail("Could not find any guests for architecure type " + virttype + "/" + arch)
  }

  /**
   * `getGuestForArchType(caps, arch, virttype)`: the first guest whose
   * architecture and OS type match; an error when there is none.
   */
  function GuestForArchType(caps: Caps, arch: string, virttype: string): (r: Result<CapsGuest>)
    ensures r.Ok? <==> exists j :: 0 <= j < |caps.guests| && GuestMatches(caps.guests[j], arch, virttype)
    ensures r.Ok? ==> exists j :: 0 <= j < |caps.guests| && r.value == caps.guests[j] &&
                        GuestMatches(caps.guests[j], arch, virttype) &&
                        forall j' :: 0 <= j' < j ==> !GuestMatches(caps.guests[j'], arch, virttype)
    ensures r.Err? ==> r.error == NoGuestError(arch, virttype)
  {
    var i := FindGuest(caps.guests, arch, virttype);
    if i.Some? then Ok(caps.guests[i.value])
    else Err(NoGuestError(arch, virttype))
  }

  /** The index of the first machine named `target`. */
  function FindMachine(machines: seq<CapsMachine>, target: string): (i: Option<nat>)
    ensures i.Some? ==> i.value < |machines| && machines[i.value].name == target
    ensures i.Some? ==> forall j :: 0 <= j < i.value ==> machines[j].name != target
    ensures i.None? ==> forall j :: 0 <= j < |machines| ==> machines[j].name != target
  {
    if |machines| == 0 then None
    else if machines[0].name == target then Some(0)
    else
      var rest := FindMachine(machines[1..], target);
      if rest.Some? then Some(rest.value + 1) else None
  }

  /** The name a machine answers to: its canonical name when it has one. */
  function CanonicalOf(m: CapsMachine): string {
    if m.canonical != "" then m.canonical else m.name
  }

  /** The error for a guest without a machine named `target`. */
  function NoMachineError(arch: string, virttype: string, target: string): Error {
    Fail("Cannot find machine type " + target + " for " + virttype + "/" + arch)
  }

  /**
   * `getCanonicalMachineName(caps, arch, virttype, target)`: within the
   * first matching guest, the first machine named `target`, by its
   * canonical name if non-empty, else by its name; an error when there is no
   * such guest or no such machine.
   */
  function CanonicalMachineName(caps: Caps, arch: string, virttype: string, target: string): (r: Result<string>)
    ensures GuestForArchType(caps, arch, virttype).Err? ==> r == Err(GuestForArchType(caps, arch, virttype).error)
    ensures GuestForArchType(caps, arch, virttype).Ok? ==>
              var g := GuestForArchType(caps, arch, virttype).value;
              (r.Ok? <==> exists j :: 0 <= j < |g.machines| && g.machines[j].name == target) &&
              (r.Ok? ==> exists j :: 0 <= j < |g.machines| && g.machines[j].name == target &&
                           r.value == CanonicalOf(g.machines[j]) &&
                           forall j' :: 0 <= j' < j ==> g.machines[j'].name != target) &&
              (r.Err? ==> r.error == NoMachineError(arch, virttype, target))
  {
    var guest :- GuestForArchType(caps, arch, virttype);
    var i := FindMachine(guest.machines, target);
    if i.Some? then Ok(CanonicalOf(guest.machines[i.value]))
    else Err(NoMachineError(arch, virttype, target))
  }

  /** Looking up the first machine's own name finds that machine. */
  lemma CanonicalOfFirstMachine(caps: Caps, arch: string, virttype: string)
    requires GuestForArchType(caps, arch, virttype).Ok?
    requires |GuestForArchType(caps, arch, virttype).value.machines| > 0
    ensures var g := GuestForArchType(caps, arch, virttype).value;
            CanonicalMachineName(caps, arch, virttype, g.machines[0].name) == Ok(CanonicalOf(g.machines[0]))
  {
    var g := GuestForArchType(caps, arch, virttype).value;
    assert FindMachine(g.machines, g.machines[0].name) == Some(0);
  }

  /** The definition `newDomainDefForConnection` produces for a guest and its first machine. */
  function DefForGuest(domainTypeEnv: string, hostArch: string, g: CapsGuest): (d: DomainDef)
    requires |g.machines| > 0
  {
    var d := BaseDomainDef(domainTypeEnv, DevicesFor(hostArch).(emulator := g.emulator));
    d.(os := d.os.(osType := OSType("hvm", hostArch, CanonicalOf(g.machines[0]))))
  }

  /**
   * `newDomainDefForConnection(virConn)`: the skeleton with the host's
   * devices, the host architecture, the emulator of the first "hvm" guest for
   * that architecture and the canonical name of that guest's first machine.
   * The capabilities are read three times; when reading them fails the
   * error is returned after the second read.  `domainTypeEnv` is the value of
   * TERRAFORM_LIBVIRT_TEST_DOMAIN_TYPE.
   */
  method NewDomainDefForConnection(c: Connect, domainTypeEnv: string) returns (r: Result<DomainDef>)
    modifies c
    ensures c.store == old(c.store)
    ensures Call.GetCapabilities in c.fails ==>
              r == Err(ErrorOf(c.fails[Call.GetCapabilities])) &&
              c.trace == old(c.trace) + [Call.GetCapabilities] + [Call.GetCapabilities]
    ensures Call.GetCapabilities !in c.fails ==>
              c.trace == old(c.trace) + [Call.GetCapabilities] + [Call.GetCapabilities] + [Call.GetCapabilities]
    ensures Call.GetCapabilities !in c.fails ==>
              var g := GuestForArchType(c.caps, c.caps.hostArch, "hvm");
              (r.Ok? <==> g.Ok? && |g.value.machines| > 0) &&
              (r.Ok? ==> r.value == DefForGuest(domainTypeEnv, c.caps.hostArch, g.value)) &&
              (r.Ok? ==> r.value.devices.disks == [] && r.value.devices.interfaces == [] && r.value.qemuArgs == None) &&
              (g.Err? ==> r == Err(g.error)) &&
              (g.Ok? && |g.value.machines| == 0 ==>
                 r == Err(NoMachineError(c.caps.hostArch, "hvm", "")))
  {
    var devices := NewDevicesDef(c);
    var d := BaseDomainDef(domainTypeEnv, devices);
    var arch := GetHostArchitecture(c);
    if arch.Err? {
      return Err(arch.error);
    }
    d := d.(os := d.os.(osType := d.os.osType.(arch := arch.value)));
    var caps := c.GetCapabilities();
    if caps.Err? {
      // The same call has just succeeded, and a call's answer never changes.
      assert false;
      return Err(Fail(""));
    }
    var guest := GuestForArchType(caps.value, d.os.osType.arch, d.os.osType.osType);
    if guest.Err? {
      return Err(guest.error);
    }
    d := d.(devices := d.devices.(emulator := guest.value.emulator));
    if |guest.value.machines| > 0 {
      d := d.(os := d.os.(osType := d.os.osType.(machine := guest.value.machines[0].name)));
      CanonicalOfFirstMachine(caps.value, d.os.osType.arch, d.os.osType.osType);
    }
    var canonical := CanonicalMachineName(caps.value, d.os.osType.arch, d.os.osType.osType, d.os.osType.machine);
    if canonical.Err? {
      return Err(canonical.error);
    }
    d := d.(os := d.os.(osType := d.os.osType.(machine := canonical.value)));
    r := Ok(d);
  }

  // ----- disks -----

  /** The r-th letter of "abcdefghijklmnopqrstuvwxyz". */
  function DiskLetter(r: nat): (ch: char)
    requires r < 26
    ensures IsDiskLetter(ch) && LetterDigit(ch) == r
  {
    (97 + r) as char
  }

  predicate IsDiskLetter(ch: char) {
    'a' <= ch <= 'z'
  }

  /** `diskLetterForIndex(i)`: the letters of i in bijective base 26 (0 is "a", 26 is "aa"). */
  function DiskLetterForIndex(i: nat): (s: string)
    ensures |s| >= 1 && forall k :: 0 <= k < |s| ==> IsDiskLetter(s[k])
  {
    var q := i / 26;
    var r := i % 26;
    if q == 0 then [DiskLetter(r)] else DiskLetterForIndex(q - 1) + [DiskLetter(r)]
  }

  /** The index a disk-letter string stands for: the inverse of `DiskLetterForIndex`. */
  function DiskIndexOf(s: string): int {
    LettersValue(s) - 1
  }

  /** The value of a string of letters read as a bijective base-26 numeral ("a" is 1, "z" is 26). */
  function LettersValue(s: string): nat {
    if |s| == 0 then 0
    else LettersValue(s[..|s| - 1]) * 26 + LetterDigit(s[|s| - 1]) + 1
  }

  function LetterDigit(ch: char): nat {
    if IsDiskLetter(ch) then ch as int - 'a' as int else 0
  }

  /** Every index reads back from its disk letters. */
  lemma {:induction false} DiskIndexOfLetters(i: nat)
    ensures DiskIndexOf(DiskLetterForIndex(i)) == i
    decreases i
  {
    var q := i / 26;
    var r := i % 26;
    var s := DiskLetterForIndex(i);
    if q == 0 {
      assert s == [DiskLetter(r)];
      assert s[..0] == [] && s[0] == DiskLetter(r);
      assert LettersValue(s) == LettersValue(s[..0]) * 26 + LetterDigit(s[0]) + 1;
    } else {
      DiskIndexOfLetters(q - 1);
      var p := DiskLetterForIndex(q - 1);
      assert s == p + [DiskLetter(r)];
      assert s[..|s| - 1] == p;
      assert LettersValue(p) == q;
      assert LettersValue(s) == LettersValue(p) * 26 + r + 1;
      assert i == q * 26 + r;
    }
  }

  /** Every non-empty string of lower-case letters is the disk letters of exactly one index. */
  lemma {:induction false} DiskLettersOfIndex(s: string)
    requires |s| >= 1 && forall k :: 0 <= k < |s| ==> IsDiskLetter(s[k])
    ensures DiskIndexOf(s) >= 0 && DiskLetterForIndex(DiskIndexOf(s)) == s
    decreases |s|
  {
    var p := s[..|s| - 1];
    var d := LetterDigit(s[|s| - 1]);
    assert DiskLetter(d) == s[|s| - 1];
    var i := DiskIndexOf(s);
    assert i == LettersValue(p) * 26 + d;
    assert i / 26 == LettersValue(p) && i % 26 == d;
    if |p| == 0 {
      assert s == [DiskLetter(d)];
    } else {
      DiskLettersOfIndex(p);
      assert LettersValue(p) >= 1;
      assert s == p + [s[|s| - 1]];
    }
  }

  /** Different indices get different disk letters. */
  lemma DiskLetterInjective(i: nat, j: nat)
    requires DiskLetterForIndex(i) == DiskLetterForIndex(j)
    ensures i == j
  {
    DiskIndexOfLetters(i);
    DiskIndexOfLetters(j);
  }

  lemma DiskLetterExamples()
    ensures DiskLetterForIndex(0) == "a" && DiskLetterForIndex(25) == "z"
    ensures DiskLetterForIndex(26) == "aa" && DiskLetterForIndex(27) == "ab"
    ensures DiskLetterForIndex(701) == "zz" && DiskLetterForIndex(702) == "aaa"
  {
    assert DiskLetterForIndex(0) == "a";
    assert DiskLetterForIndex(25) == "z";
    assert DiskLetterForIndex(26) == DiskLetterForIndex(0) + "a";
    assert DiskLetterForIndex(27) == DiskLetterForIndex(0) + "b";
    assert DiskLetterForIndex(701) == DiskLetterForIndex(25) + "z";
    assert DiskLetterForIndex(702) == DiskLetterForIndex(26) + "a";
  }

  /**
   * `newDefDisk(i)`: a qcow2 virtio disk without a source whose device is
   * "vd" followed by the disk letters of i.
   */
  function NewDefDisk(i: nat): (d: Disk)
    ensures d.device == "disk" && d.source == None && d.targetBus == "virtio"
    ensures d.driverName == "qemu" && d.driverType == "qcow2" && !d.readOnly && d.serial == ""
    ensures |d.targetDev| >= 3 && d.targetDev[..2] == "vd" && DiskIndexOf(d.targetDev[2..]) == i
  {
    DiskIndexOfLetters(i);
    var dev := "vd" + DiskLetterForIndex(i);
    assert dev[2..] == DiskLetterForIndex(i);
    Disk("disk", None, dev, "virtio", "qemu", "qcow2", false, "")
  }

  const WWNChars := "abcdef0123456789"
  const OUI := "05abcd"

  /**
   * `randomWWN(strlen)`: the OUI "05abcd" followed by `strlen` characters
   * drawn from "abcdef0123456789"; `picks` are the values `rand.Intn(16)`
   * returned.
   */
  method RandomWWN(strlen: nat, picks: seq<nat>) returns (s: string)
    requires |picks| == strlen && forall i :: 0 <= i < strlen ==> picks[i] < 16
    ensures |s| == |OUI| + strlen && s[..|OUI|] == OUI
    ensures forall i :: 0 <= i < strlen ==> s[|OUI| + i] == WWNChars[picks[i]]
  {
    var result := new char[strlen];
    for i := 0 to strlen
      invariant forall j :: 0 <= j < i ==> result[j] == WWNChars[picks[j]]
    {
      result[i] := WWNChars[picks[i]];
    }
    s := OUI + result[..];
  }

  // ----- the Ignition device -----

  /** The read-only raw virtio disk vdb with serial "ignition" that System Z and PowerPC read Ignition from. */
  function IgnitionDisk(ignKey: string): Disk {
    Disk("disk", Some(ignKey), "vdb", "virtio", "qemu", "raw", true, "ignition")
  }

  /** The QEMU arguments that hand a file to the guest as the firmware-configuration item of CoreOS. */
  function FwCfgArgs(file: string): (args: seq<string>)
    ensures |args| == 2 && args[0] == "-fw_cfg" && args[1] == "name=opt/com.coreos/config,file=" + file
  {
    ["-fw_cfg", "name=opt/com.coreos/config,file=" + file]
  }

  /** `setFirmware` on an OS element: a pflash loader for a non-empty firmware, and its NVRAM when given. */
  function WithFirmware(os: DomainOS, firmware: string, nvram: Option<NVRam>): (r: DomainOS)
    ensures r.osType == os.osType
    ensures firmware == "" ==> r == os
    ensures firmware != "" ==> r.loader == Some(Loader(firmware, "yes", "pflash", "no"))
    ensures r.nvram == if firmware != "" && nvram.Some? then nvram else os.nvram
  {
    if firmware == "" then os
    else
      var os' := os.(loader := Some(Loader(firmware, "yes", "pflash", "no")));
      if nvram.Some? then os'.(nvram := nvram) else os'
  }

  /** The host name a domain's DHCP entry gets: the one given, else the domain name. */
  function Hostname(domainName: string, given: string): (h: string)
    ensures given != "" ==> h == given
    ensures given == "" ==> h == domainName
  {
    if given != "" then given else domainName
  }

  /** Reading a network's name and definition does not fail. */
  predicate NetworkReadable(c: Connect, name: string) {
    Call.NetworkLookupByName(name) !in c.fails && Call.NetworkGetName(name) !in c.fails &&
    Call.NetworkGetXMLDesc(name) !in c.fails
  }

  // ----- address allocation -----

  /** Every host number in [from, to) generates an address whose text is already taken. */
  ghost predicate AllTaken(network: IPNet, taken: set<string>, from: int, to: int) {
    forall k: int64 :: from <= k < to ==> GenerateIP(network, k).Ok? && IPString(GenerateIP(network, k).value) in taken
  }

  /** `ip` is generated by host number n, the first number from 51 whose address is free. */
  ghost predicate FirstFree(network: IPNet, taken: set<string>, n: int64, ip: IP) {
    ClientNetwork.WorkerIPCidr <= n && GenerateIP(network, n) == Ok(ip) && IPString(ip) !in taken &&
    AllTaken(network, taken, ClientNetwork.WorkerIPCidr, n)
  }

  lemma TakenStep(network: IPNet, taken: set<string>, n: int64)
    requires AllTaken(network, taken, ClientNetwork.WorkerIPCidr, n)
    requires GenerateIP(network, n).Ok? && IPString(GenerateIP(network, n).value) in taken
    ensures AllTaken(network, taken, ClientNetwork.WorkerIPCidr, n + 1)
  {
    forall k: int64 | ClientNetwork.WorkerIPCidr <= k < n + 1
      ensures GenerateIP(network, k).Ok? && IPString(GenerateIP(network, k).value) in taken
    {
      if k == n {
      } else {
        assert ClientNetwork.WorkerIPCidr <= k < n;
      }
    }
  }

  /**
   * The loop of `setNetworkInterfaces` that looks for a free address: it
   * generates the addresses of host numbers 51, 52, ... and stops at the
   * first one that is not a key of `taken`, or with the error of the first
   * host number the network cannot hold.  The numbering stops at the largest
   * `int`, where the Go counter would wrap.
   */
  method AllocateIP(network: IPNet, taken: map<string, string>) returns (r: Result<IP>, n: int64)
    ensures ClientNetwork.WorkerIPCidr <= n
    ensures AllTaken(network, taken.Keys, ClientNetwork.WorkerIPCidr, n)
    ensures r.Ok? ==> FirstFree(network, taken.Keys, n, r.value)
    ensures GenerateIP(network, n).Err? ==> r == Err(Wrap("failed to generate ip", GenerateIP(network, n).error))
    ensures GenerateIP(network, n).Ok? && r.Err? ==>
              n == TwoTo63 - 1 && IPString(GenerateIP(network, n).value) in taken
  {
    n := ClientNetwork.WorkerIPCidr;
    while true
      invariant ClientNetwork.WorkerIPCidr <= n
      invariant AllTaken(network, taken.Keys, ClientNetwork.WorkerIPCidr, n)
      decreases TwoTo63 - n
    {
      var ip := GenerateIP(network, n);
      if ip.Err? {
        return Err(Wrap("failed to generate ip", ip.error)), n;
      }
      if IPString(ip.value) !in taken {
        return Ok(ip.value), n;
      }
      if n == TwoTo63 - 1 {
        return Err(Fail("failed to generate ip: host numbers exhausted")), n;
      }
      TakenStep(network, taken.Keys, n);
      n := n + 1;
    }
  }

  /** The interface `setNetworkInterfaces` appends: virtio, a MAC address, and the named network if any. */
  predicate NewInterface(iface: Interface, networkName: string) {
    iface.model == "virtio" && iface.mac.Some? && ClientNetwork.IsMac(iface.mac.value) &&
    iface.network == (if networkName == "" then None else Some(networkName))
  }

  /** `after` is `before` with the first free address of `network` (from host 51) reserved. */
  ghost predicate Reserved(network: IPNet, before: map<string, string>, after: map<string, string>) {
    exists n: int64, ip: IP :: FirstFree(network, before.Keys, n, ip) && after == before[IPString(ip) := ""]
  }

  /** The address reserved between `before` and `after` is a static host of the network with this MAC and name. */
  ghost predicate RegisteredHost(hosts: seq<DHCPHost>, before: map<string, string>, after: map<string, string>,
                                 mac: string, hostname: string) {
    exists ip: string :: after == before[ip := ""] && DHCPHost(ip, mac, hostname) in hosts
  }

  /** The network `name` is defined and its definition serves DHCP. */
  ghost predicate OffersDHCP(networks: map<string, NetworkRecord>, name: string) {
    name in networks && ClientNetwork.HasDHCP(networks[name].def)
  }

  /**
   * What joining the DHCP network `networkName` leaves: the address range
   * was given and parsed, the first free address of it from host 51 is
   * reserved between `before` and `after`, and that address is a static
   * host of the network with this MAC and name.
   */
  ghost predicate JoinedDHCP(networks: map<string, NetworkRecord>, networkName: string, networkAddress: string,
                             networkCIDR: Option<IPNet>, before: map<string, string>, after: map<string, string>,
                             mac: string, hostname: string) {
    networkAddress != "" && networkCIDR.Some? && Reserved(networkCIDR.value, before, after) &&
    networkName in networks && RegisteredHost(networks[networkName].hosts, before, after, mac, hostname)
  }

  /**
   * The network lookup of `setNetworkInterfaces`: the network by name, its
   * name, and its definition as `newDefNetworkfromLibvirt` reads it; each
   * failure has its own message.
   */
  method LookupNetwork(c: Connect, networkName: string) returns (r: Result<NetworkDef>)
    modifies c
    ensures c.store == old(c.store)
    ensures c.Effect(Call.NetworkLookupByName(networkName), networkName in c.store.networks, NoNetwork).Some? ==>
              r == Err(Fail("Can't retrieve network name " + networkName))
    ensures r.Ok? <==> networkName in c.store.networks && NetworkReadable(c, networkName)
    ensures r.Ok? ==> r.value == c.store.networks[networkName].def
    ensures r.Ok? ==> c.trace == old(c.trace) + [Call.NetworkLookupByName(networkName), Call.NetworkGetName(networkName),
                                                 Call.NetworkGetXMLDesc(networkName)]
    ensures networkName in c.store.networks && Call.NetworkLookupByName(networkName) !in c.fails &&
            Call.NetworkGetName(networkName) in c.fails ==>
              r == Err(Wrap("Error retrieving network name", ErrorOf(c.fails[Call.NetworkGetName(networkName)])))
    ensures networkName in c.store.networks && Call.NetworkLookupByName(networkName) !in c.fails &&
            Call.NetworkGetName(networkName) !in c.fails && Call.NetworkGetXMLDesc(networkName) in c.fails ==>
              r == Err(Wrap("Error retrieving network definition",
                            Wrap("Error retrieving libvirt domain XML description",
                                 ErrorOf(c.fails[Call.NetworkGetXMLDesc(networkName)]))))
  {
    var found := c.NetworkLookupByName(networkName);
    if found.Some? {
      return Err(Fail("Can't retrieve network name " + networkName));
    }
    var name := c.NetworkGetName(networkName);
    if name.Err? {
      return Err(Wrap("Error retrieving network name", name.error));
    }
    var netDef := c.NetworkGetXMLDesc(networkName);
    if netDef.Err? {
      return Err(Wrap("Error retrieving network definition",
                      Wrap("Error retrieving libvirt domain XML description", netDef.error)));
    }
    r := Ok(netDef.value);
  }

  /**
   * The reservation of `setNetworkInterfaces`: the first free address from
   * host 51 becomes a key of `leases` and is then registered as the static
   * DHCP host (MAC `mac`, name `hostname`) of the network.
   */
  method ReserveHost(c: Connect, leases: ClientNetwork.Leases, networkName: string, network: IPNet,
                     mac: string, hostname: string) returns (err: Outcome)
    modifies c, leases
    ensures leases.items == old(leases.items) || Reserved(network, old(leases.items), leases.items)
    ensures leases.items == old(leases.items) ==> err.Some? && c.store == old(c.store) && c.trace == old(c.trace)
    ensures err.None? ==>
              networkName in c.store.networks &&
              RegisteredHost(c.store.networks[networkName].hosts, old(leases.items), leases.items, mac, hostname)
    ensures c.store.domains == old(c.store.domains) && c.store.volumes == old(c.store.volumes)
    ensures c.store.networks - {networkName} == old(c.store.networks) - {networkName}
  {
    var ip, n := AllocateIP(network, leases.items);
    if ip.Err? {
      return Some(ip.error);
    }
    var key := IPString(ip.value);
    leases.items := leases.items[key := ""];
    assert FirstFree(network, old(leases.items).Keys, n, ip.value);
    assert leases.items != old(leases.items) by {
      assert key in leases.items && key !in old(leases.items);
    }
    err := ClientNetwork.UpdateOrAddHost(c, networkName, key, mac, hostname);
  }

  /** Why an interface on a DHCP network without an address is rejected. */
  function NotWaitingMessage(hostname: string): string {
    "Cannot map '" + hostname + "': we are not waiting for DHCP lease and no IP has been provided"
  }

  /**
   * The network part of `setNetworkInterfaces`: the named network is looked
   * up; when it serves DHCP, the address range `networkAddress` (parsed as
   * `networkCIDR`) makes the first free address from host 51 reserved in
   * `leases` and registered for `mac` and `hostname`, and without an address
   * the interface is rejected.
   */
  method JoinNetwork(c: Connect, leases: ClientNetwork.Leases, networkName: string, networkAddress: string,
                     networkCIDR: Option<IPNet>, mac: string, hostname: string)
    returns (err: Outcome)
    modifies c, leases
    ensures old(c.Effect(Call.NetworkLookupByName(networkName), networkName in c.store.networks, NoNetwork)).Some? ==>
              err == Some(Fail("Can't retrieve network name " + networkName)) && leases.items == old(leases.items)
    ensures networkName in old(c.store.networks) && NetworkReadable(c, networkName) &&
            ClientNetwork.HasDHCP(old(c.store.networks[networkName].def)) && networkAddress == "" ==>
              err == Some(Fail(NotWaitingMessage(hostname)))
    ensures leases.items == old(leases.items) ||
            (networkCIDR.Some? && Reserved(networkCIDR.value, old(leases.items), leases.items))
    ensures err.None? && leases.items != old(leases.items) ==>
              networkName in c.store.networks && RegisteredHost(c.store.networks[networkName].hosts, old(leases.items), leases.items, mac, hostname)
    ensures err.None? && OffersDHCP(old(c.store.networks), networkName) ==>
              JoinedDHCP(c.store.networks, networkName, networkAddress, networkCIDR, old(leases.items), leases.items,
                         mac, hostname)
    ensures !OffersDHCP(old(c.store.networks), networkName) ==>
              leases.items == old(leases.items) && c.store == old(c.store)
    ensures c.store.domains == old(c.store.domains) && c.store.volumes == old(c.store.volumes)
    ensures c.store.networks - {networkName} == old(c.store.networks) - {networkName}
  {
    var netDef := LookupNetwork(c, networkName);
    if netDef.Err? {
      return Some(netDef.error);
    }
    if ClientNetwork.HasDHCP(netDef.value) {
      if networkAddress != "" {
        if networkCIDR.None? {
          return Some(Wrap("failed to parse libvirt network ipRange", Fail("invalid CIDR address: " + networkAddress)));
        }
        err := ReserveHost(c, leases, networkName, networkCIDR.value, mac, hostname);
        return;
      } else {
        return Some(Fail(NotWaitingMessage(hostname)));
      }
    }
    err := None;
  }

  // ----- the domain definition under construction -----

  /** The `*libvirtxml.Domain` the builder functions fill in place. */
  class Domain {
    var def: DomainDef

    constructor (def0: DomainDef)
      ensures def == def0
    {
      def := def0;
    }

    /**
     * `setCoreOSIgnition(domainDef, ignKey, arch)`: rejects an empty key;
     * on s390 and ppc64 hosts appends the Ignition disk; elsewhere replaces the QEMU
     * command line by the firmware-configuration arguments for the key.
     */
    method SetCoreOSIgnition(ignKey: string, arch: string) returns (err: Outcome)
      modifies this
      ensures ignKey == "" ==> err == Some(Fail("error setting coreos ignition, ignKey is empty")) && def == old(def)
      ensures ignKey != "" && IsS390OrPPC64(arch) ==>
                err == None && def == old(def).(devices := old(def).devices.(disks := old(def).devices.disks + [IgnitionDisk(ignKey)]))
      ensures ignKey != "" && !IsS390OrPPC64(arch) ==>
                err == None && def == old(def).(qemuArgs := Some(FwCfgArgs(ignKey)))
    {
      if ignKey == "" {
        return Some(Fail("error setting coreos ignition, ignKey is empty"));
      }
      if IsS390OrPPC64(arch) {
        def := def.(devices := def.devices.(disks := def.devices.disks + [IgnitionDisk(ignKey)]));
      } else {
        def := def.(qemuArgs := Some(FwCfgArgs(ignKey)));
      }
      err := None;
    }

    /**
     * `setDisks(domainDef, diskVolume)`: appends disk vda, backed by the
     * volume's path; a path that cannot be read is an error and nothing is
     * appended.
     */
    method SetDisks(c: Connect, diskKey: string) returns (err: Outcome)
      modifies this, c
      ensures c.trace == old(c.trace) + [Call.VolGetPath(diskKey)] && c.store == old(c.store)
      ensures var p := old(c.Answer(Call.VolGetPath(diskKey), if diskKey in c.store.volumes then Some(diskKey) else None, NoStorageVol));
              (p.Err? ==> err == Some(Wrap("Error retrieving volume file", p.error)) && def == old(def)) &&
              (p.Ok? ==>
                 (err == None &&
                  def == old(def).(devices := old(def).devices.(disks := old(def).devices.disks + [NewDefDisk(0).(source := Some(p.value))]))))
    {
      var disk := NewDefDisk(0);
      var path := c.VolGetPath(diskKey);
      if path.Err? {
        return Some(Wrap("Error retrieving volume file", path.error));
      }
      disk := disk.(source := Some(path.value));
      def := def.(devices := def.devices.(disks := def.devices.disks + [disk]));
      err := None;
    }

    /** `setFirmware(input, domainDef)`. */
    method SetFirmware(firmware: string, nvram: Option<NVRam>)
      modifies this
      ensures def == old(def).(os := WithFirmware(old(def).os, firmware, nvram))
    {
      if firmware != "" {
        def := def.(os := def.os.(loader := Some(Loader(firmware, "yes", "pflash", "no"))));
        if nvram.Some? {
          def := def.(os := def.os.(nvram := nvram));
        }
      }
    }

    /**
     * `domainDefInit(domainDef, input)`: sets the name, the memory in MiB and
     * the vCPU count, failing at the first one that is empty or zero (the
     * fields already set stay set); then selects host-passthrough CPU mode
     * and the firmware.  The memory is converted with Go's `uint`.
     */
    method DomainDefInit(name: string, memory: int64, vcpu: int64, firmware: string, nvram: Option<NVRam>)
      returns (err: Outcome)
      modifies this
      ensures name == "" ==> err == Some(Fail("machine does not have an name set")) && def == old(def)
      ensures name != "" && memory == 0 ==>
                err == Some(Fail("machine does not have an DomainMemory set")) && def == old(def).(name := name)
      ensures name != "" && memory != 0 && vcpu == 0 ==>
                err == Some(Fail("machine does not have an DomainVcpu set")) &&
                def == old(def).(name := name, memory := Memory(ToUint64(memory), "MiB"))
      ensures name != "" && memory != 0 && vcpu != 0 ==>
                err == None &&
                def == old(def).(name := name, memory := Memory(ToUint64(memory), "MiB"), vcpu := VCPU("", vcpu),
                                 cpuMode := "host-passthrough", os := WithFirmware(old(def).os, firmware, nvram))
    {
      if name == "" {
        return Some(Fail("machine does not have an name set"));
      }
      def := def.(name := name);
      if memory == 0 {
        return Some(Fail("machine does not have an DomainMemory set"));
      }
      def := def.(memory := Memory(ToUint64(memory), "MiB"));
      if vcpu == 0 {
        return Some(Fail("machine does not have an DomainVcpu set"));
      }
      def := def.(vcpu := VCPU("", vcpu));
      def := def.(cpuMode := "host-passthrough");
      SetFirmware(firmware, nvram);
      err := None;
    }

    /**
     * `setNetworkInterfaces` (one interface): a virtio interface with a fresh
     * MAC address (`macBytes`/`macErr` are what `rand.Read` produced) is
     * appended, attached to the network `networkName` when one is named.
     * On a network with DHCP, an address range `networkAddress` (parsed as
     * `networkCIDR`) makes the first free address from host 51 reserved in
     * `leases` and registered as a static DHCP host; without an address the
     * interface is rejected, since no interface is ever awaiting a lease.
     * On any error nothing is appended.
     */
    method SetNetworkInterfaces(c: Connect, leases: ClientNetwork.Leases, macBytes: seq<bv8>, macErr: Outcome,
                                hostnameGiven: string, networkName: string, networkAddress: string,
                                networkCIDR: Option<IPNet>)
      returns (err: Outcome)
      requires |macBytes| == 6
      modifies this, c, leases
      ensures err.Some? ==> def == old(def)
      ensures err.None? ==>
                |def.devices.interfaces| == |old(def.devices.interfaces)| + 1 &&
                def == old(def).(devices := old(def).devices.(interfaces := def.devices.interfaces)) &&
                def.devices.interfaces[..|old(def.devices.interfaces)|] == old(def.devices.interfaces) &&
                NewInterface(def.devices.interfaces[|old(def.devices.interfaces)|], networkName)
      ensures macErr.Some? ==>
                err == Some(Wrap("Error generating mac address", macErr.value)) &&
                c.trace == old(c.trace) && leases.items == old(leases.items)
      ensures networkName == "" ==>
                c.trace == old(c.trace) && c.store == old(c.store) && leases.items == old(leases.items) &&
                (err.None? <==> macErr.None?)
      ensures macErr.None? && networkName != "" &&
              old(c.Effect(Call.NetworkLookupByName(networkName), networkName in c.store.networks, NoNetwork)).Some? ==>
                err == Some(Fail("Can't retrieve network name " + networkName)) && leases.items == old(leases.items)
      ensures macErr.None? && networkName != "" && networkName in old(c.store.networks) &&
              NetworkReadable(c, networkName) &&
              ClientNetwork.HasDHCP(old(c.store.networks[networkName].def)) && networkAddress == "" ==>
                err == Some(Fail(NotWaitingMessage(Hostname(old(def.name), hostnameGiven))))
      ensures leases.items == old(leases.items) ||
              (networkCIDR.Some? && Reserved(networkCIDR.value, old(leases.items), leases.items))
      ensures err.None? && leases.items != old(leases.items) ==>
                networkName in c.store.networks && |def.devices.interfaces| > 0 &&
                def.devices.interfaces[|def.devices.interfaces| - 1].mac.Some? &&
                RegisteredHost(c.store.networks[networkName].hosts, old(leases.items), leases.items,
                               def.devices.interfaces[|def.devices.interfaces| - 1].mac.value,
                               Hostname(old(def.name), hostnameGiven))
      ensures err.None? && networkName != "" && OffersDHCP(old(c.store.networks), networkName) ==>
                |def.devices.interfaces| > 0 && def.devices.interfaces[|def.devices.interfaces| - 1].mac.Some? &&
                JoinedDHCP(c.store.networks, networkName, networkAddress, networkCIDR, old(leases.items), leases.items,
                           def.devices.interfaces[|def.devices.interfaces| - 1].mac.value,
                           Hostname(old(def.name), hostnameGiven))
      ensures networkName == "" || !OffersDHCP(old(c.store.networks), networkName) ==>
                leases.items == old(leases.items) && c.store == old(c.store)
      ensures c.store.domains == old(c.store.domains) && c.store.volumes == old(c.store.volumes)
      ensures c.store.networks - {networkName} == old(c.store.networks) - {networkName}
    {
      var mac := ClientNetwork.RandomMACAddress(macBytes, macErr);
      if mac.Err? {
        return Some(Wrap("Error generating mac address", mac.error));
      }
      var iface := Interface("virtio", Some(mac.value), None);
      if networkName != "" {
        err := JoinNetwork(c, leases, networkName, networkAddress, networkCIDR, mac.value, Hostname(def.name, hostnameGiven));
        if err.Some? {
          return;
        }
        iface := iface.(network := Some(networkName));
      }
      def := def.(devices := def.devices.(interfaces := def.devices.interfaces + [iface]));
      err := None;
    }
  }
}
