/**
 * The domain helpers of the machine actuator's helper package
 * (pkg/cloud/libvirt/actuators/machine/utils/domain.go).  The connection is
 * `c: Connect?`, null being the nil connection of a `Client`.  Disk naming,
 * `randomWWN` and the MAC generator are the newest client's, word for word,
 * and are reused from `ClientDomain` and `ClientNetwork`.
 */
module UtilsDomain {
  import opened Wrappers
  import opened Strs
  import opened Cidr
  import opened LibvirtXml
  import opened Hypervisor
  import opened Kube
  import ClientDomain
  import ClientNetwork
  import ClientCloudInit
  import UtilsNetwork
  import LegacyCloudInit
  import ClientClient

  /** The directory whose path plus a volume name is taken as that volume's key. */
  const BaseVolumePath := "/var/lib/libvirt/images/"

  // ----- the definition skeleton -----

  /**
   * `newDomainDef()`: the skeleton with the fixed devices of this
   * generation, SPICE graphics included whatever the host.
   */
  function NewDomainDef(domainTypeEnv: string): (d: DomainDef)
  {
    BaseDomainDef(domainTypeEnv, FixedDevices())
  }

  /**
   * The skeleton agrees with the newest client's exactly on the hosts that
   * are neither s390 nor ppc64; on those the newest client drops the SPICE
   * graphics and this one keeps them.
   */
  lemma NewDomainDefAgrees(domainTypeEnv: string, arch: string)
    ensures NewDomainDef(domainTypeEnv).devices.graphics == [Spice("yes")]
    ensures NewDomainDef(domainTypeEnv) == BaseDomainDef(domainTypeEnv, ClientDomain.DevicesFor(arch))
            <==> !ClientDomain.IsS390OrPPC64(arch)
  {
    if ClientDomain.IsS390OrPPC64(arch) {
      assert |ClientDomain.DevicesFor(arch).graphics| == 0;
    }
  }

  /** The error for capabilities without a guest for `arch`/`virttype`. */
  function NoGuestError(arch: string, virttype: string): Error {
    Fail("[DEBUG] Could not find any guests for architecure type " + virttype + "/" + arch)
  }

  /** The error for a guest without a machine named `target`. */
  function NoMachineError(arch: string, virttype: string, target: string): Error {
    Fail("[WARN] Cannot find machine type " + target + " for " + virttype + "/" + arch)
  }

  /**
   * `getGuestForArchType(caps, arch, virttype)`: the guest the newest
   * client's lookup finds (the first one of that architecture and OS
   * type), with this generation's message when there is none.
   */
  function GuestForArchType(caps: Caps, arch: string, virttype: string): (r: Result<CapsGuest>)
    ensures r.Ok? <==> exists j :: 0 <= j < |caps.guests| && ClientDomain.GuestMatches(caps.guests[j], arch, virttype)
    ensures r.Ok? ==> r == ClientDomain.GuestForArchType(caps, arch, virttype)
    ensures r.Err? ==> r.error == NoGuestError(arch, virttype)
  {
    var g := ClientDomain.GuestForArchType(caps, arch, virttype);
    if g.Ok? then g else Err(NoGuestError(arch, virttype))
  }

  /**
   * `getCanonicalMachineName(caps, arch, virttype, target)`: the name the
   * newest client's lookup finds (the canonical name of the first machine
   * called `target` in that guest), with this generation's messages.
   */
  function CanonicalMachineName(caps: Caps, arch: string, virttype: string, target: string): (r: Result<string>)
    ensures r.Ok? <==> ClientDomain.CanonicalMachineName(caps, arch, virttype, target).Ok?
    ensures r.Ok? ==> r == ClientDomain.CanonicalMachineName(caps, arch, virttype, target)
    ensures GuestForArchType(caps, arch, virttype).Err? ==> r == Err(NoGuestError(arch, virttype))
    ensures GuestForArchType(caps, arch, virttype).Ok? && r.Err? ==> r.error == NoMachineError(arch, virttype, target)
  {
    var _ :- GuestForArchType(caps, arch, virttype);
    var m := ClientDomain.CanonicalMachineName(caps, arch, virttype, target);
    if m.Ok? then m else Err(NoMachineError(arch, virttype, target))
  }

  /** The definition `newDomainDefForConnection` produces for a guest and its first machine. */
  function DefForGuest(domainTypeEnv: string, hostArch: string, g: CapsGuest): (d: DomainDef)
    requires |g.machines| > 0
  {
    var d := BaseDomainDef(domainTypeEnv, FixedDevices().(emulator := g.emulator));
    d.(os := d.os.(osType := OSType("hvm", hostArch, ClientDomain.CanonicalOf(g.machines[0]))))
  }

  /** Built for the same guest, it is the newest client's definition exactly off s390 and ppc64. */
  lemma DefForGuestAgrees(domainTypeEnv: string, hostArch: string, g: CapsGuest)
    requires |g.machines| > 0
    ensures DefForGuest(domainTypeEnv, hostArch, g).devices.graphics == [Spice("yes")]
    ensures DefForGuest(domainTypeEnv, hostArch, g) == ClientDomain.DefForGuest(domainTypeEnv, hostArch, g)
            <==> !ClientDomain.IsS390OrPPC64(hostArch)
  {
    if ClientDomain.IsS390OrPPC64(hostArch) {
      assert |ClientDomain.DefForGuest(domainTypeEnv, hostArch, g).devices.graphics| == 0;
    }
  }

  /**
   * What `newDomainDefForConnection` builds from capabilities it could read:
   * the skeleton for the first "hvm" guest of the host architecture and
   * that guest's first machine, or the error saying which is missing.
   */
  function HostDef(caps: Caps, domainTypeEnv: string): (r: Result<DomainDef>)
    ensures r.Ok? <==> GuestForArchType(caps, caps.hostArch, "hvm").Ok? &&
                       |GuestForArchType(caps, caps.hostArch, "hvm").value.machines| > 0
    ensures r.Ok? ==>
              r.value.name == "" && r.value.os.osType.osType == "hvm" && r.value.os.osType.arch == caps.hostArch &&
              r.value.devices.emulator == GuestForArchType(caps, caps.hostArch, "hvm").value.emulator &&
              r.value.devices.disks == [] && r.value.devices.interfaces == [] && r.value.qemuArgs == None &&
              r.value.devices.graphics == [Spice("yes")]
    ensures r.Err? ==> r.error == NoGuestError(caps.hostArch, "hvm") || r.error == NoMachineError(caps.hostArch, "hvm", "")
  {
    var g :- GuestForArchType(caps, caps.hostArch, "hvm");
    if |g.machines| == 0 then Err(NoMachineError(caps.hostArch, "hvm", ""))
    else Ok(DefForGuest(domainTypeEnv, caps.hostArch, g))
  }

  /**
   * `newDomainDefForConnection(virConn)`: the skeleton with the host
   * architecture, the emulator of the first "hvm" guest for it and the
   * canonical name of that guest's first machine.  The capabilities are
   * read twice (`getHostArchitecture`, then `getHostCapabilities`); when
   * reading fails the first error is returned.
   */
  method NewDomainDefForConnection(c: Connect, domainTypeEnv: string) returns (r: Result<DomainDef>)
    modifies c
    ensures c.store == old(c.store)
    ensures Call.GetCapabilities in c.fails ==>
              r == Err(ErrorOf(c.fails[Call.GetCapabilities])) && c.trace == old(c.trace) + [Call.GetCapabilities]
    ensures Call.GetCapabilities !in c.fails ==>
              c.trace == old(c.trace) + [Call.GetCapabilities] + [Call.GetCapabilities]
    ensures Call.GetCapabilities !in c.fails ==> r == HostDef(c.caps, domainTypeEnv)
  {
    var d := NewDomainDef(domainTypeEnv);
    var arch := ClientDomain.GetHostArchitecture(c);
    if arch.Err? {
      return Err(arch.error);
    }
    d := d.(os := d.os.(osType := d.os.osType.(arch := arch.value)));
    var caps := c.GetCapabilities();
    if caps.Err? {
      // The same call has just succeeded, and a call's answer never changes.
      assert false;
      return Err(Fail(""));
    }
    var guest := GuestForArchType(caps.value, d.os.osType.arch, d.os.osType.osType);
    if guest.Err? {
      return Err(guest.error);
    }
    d := d.(devices := d.devices.(emulator := guest.value.emulator));
    if |guest.value.machines| > 0 {
      d := d.(os := d.os.(osType := d.os.osType.(machine := guest.value.machines[0].name)));
      ClientDomain.CanonicalOfFirstMachine(caps.value, d.os.osType.arch, d.os.osType.osType);
    }
    var canonical := CanonicalMachineName(caps.value, d.os.osType.arch, d.os.osType.osType, d.os.osType.machine);
    if canonical.Err? {
      return Err(canonical.error);
    }
    d := d.(os := d.os.(osType := d.os.osType.(machine := canonical.value)));
    r := Ok(d);
  }

  // ----- filling in the definition -----

  const EmptyIgnKeyError := Fail("error setting coreos ignition, ignKey is empty")

  /**
   * `setCoreOSIgnition(domainDef, ignKey)`: rejects an empty key, otherwise
   * replaces the QEMU command line by the firmware-configuration arguments
   * naming the key as the CoreOS configuration file, whatever the host.
   */
  method SetCoreOSIgnition(d: ClientDomain.Domain, ignKey: string) returns (err: Outcome)
    modifies d
    ensures ignKey == "" ==> err == Some(EmptyIgnKeyError) && d.def == old(d.def)
    ensures ignKey != "" ==> err == None && d.def == old(d.def).(qemuArgs := Some(ClientDomain.FwCfgArgs(ignKey)))
  {
    if ignKey == "" {
      return Some(EmptyIgnKeyError);
    }
    d.def := d.def.(qemuArgs := Some(ClientDomain.FwCfgArgs(ignKey)));
    err := None;
  }

  /** Disk vda of a domain, backed by the file `path`. */
  function RootDisk(path: string): (disk: Disk)
    ensures disk.targetDev == "vda" && disk.source == Some(path) && disk.driverType == "qcow2"
  {
    ClientDomain.DiskLetterExamples();
    ClientDomain.NewDefDisk(0).(source := Some(path))
  }

  /** Whether the volume with key `key` can be looked up and its path read. */
  predicate KeyReadable(c: Connect, key: string)
    reads c`store
  {
    key in c.store.volumes && Call.VolLookupByKey(key) !in c.fails && Call.VolGetPath(key) !in c.fails
  }

  /**
   * `setDisks(domainDef, virConn, volumeKey)`: appends disk vda backed by
   * the path of the volume with key `volumeKey`.  A volume that cannot be
   * looked up is reported by its key alone (the cause is dropped); a path
   * that cannot be read is an error; either way nothing is appended.
   */
  method SetDisks(d: ClientDomain.Domain, c: Connect, volumeKey: string) returns (err: Outcome)
    modifies d, c
    ensures c.store == old(c.store)
    ensures err.None? <==> KeyReadable(c, volumeKey)
    ensures err.None? ==>
              d.def == old(d.def).(devices := old(d.def).devices.(disks := old(d.def).devices.disks + [RootDisk(volumeKey)]))
    ensures err.Some? ==> d.def == old(d.def)
    ensures Call.VolLookupByKey(volumeKey) in c.fails || volumeKey !in c.store.volumes ==>
              err == Some(Fail("Can't retrieve volume " + volumeKey)) &&
              c.trace == old(c.trace) + [Call.VolLookupByKey(volumeKey)]
    ensures Call.VolLookupByKey(volumeKey) !in c.fails && volumeKey in c.store.volumes ==>
              c.trace == old(c.trace) + [Call.VolLookupByKey(volumeKey)] + [Call.VolGetPath(volumeKey)]
    ensures Call.VolLookupByKey(volumeKey) !in c.fails && volumeKey in c.store.volumes &&
            Call.VolGetPath(volumeKey) in c.fails ==>
              err == Some(Wrap("Error retrieving volume file", ErrorOf(c.fails[Call.VolGetPath(volumeKey)])))
  {
    var disk := ClientDomain.NewDefDisk(0);
    var volume := c.VolLookupByKey(volumeKey);
    if volume.Err? {
      return Some(Fail("Can't retrieve volume " + volumeKey));
    }
    var path := c.VolGetPath(volume.value);
    if path.Err? {
      return Some(Wrap("Error retrieving volume file", path.error));
    }
    disk := disk.(source := Some(path.value));
    d.def := d.def.(devices := d.def.devices.(disks := d.def.devices.disks + [disk]));
    err := None;
  }

  /**
   * `domainDefInit(domainDef, name, memory, vcpu)`: sets the name, the
   * memory in MiB (converted with Go's `uint`) and the vCPU count, failing at
   * the first one that is empty or zero (the fields already set stay set).
   * Unlike the newest client it leaves the CPU mode and firmware alone.
   */
  method DomainDefInit(d: ClientDomain.Domain, name: string, memory: int64, vcpu: int64) returns (err: Outcome)
    modifies d
    ensures name == "" ==> err == Some(Fail("machine does not have an name set")) && d.def == old(d.def)
    ensures name != "" && memory == 0 ==>
              err == Some(Fail("machine does not have an DomainMemory set")) && d.def == old(d.def).(name := name)
    ensures name != "" && memory != 0 && vcpu == 0 ==>
              err == Some(Fail("machine does not have an DomainVcpu set")) &&
              d.def == old(d.def).(name := name, memory := Memory(ToUint64(memory), "MiB"))
    ensures name != "" && memory != 0 && vcpu != 0 ==>
              err == None &&
              d.def == old(d.def).(name := name, memory := Memory(ToUint64(memory), "MiB"), vcpu := VCPU("", vcpu))
  {
    if name == "" {
      return Some(Fail("machine does not have an name set"));
    }
    d.def := d.def.(name := name);
    if memory == 0 {
      return Some(Fail("machine does not have an DomainMemory set"));
    }
    d.def := d.def.(memory := Memory(ToUint64(memory), "MiB"));
    if vcpu == 0 {
      return Some(Fail("machine does not have an DomainVcpu set"));
    }
    d.def := d.def.(vcpu := VCPU("", vcpu));
    err := None;
  }

  // ----- the network interface -----

  /** The `libvirtxml.Network{}` an unreadable network description leaves: no forward mode, hence no DHCP. */
  const EmptyNetworkDef := NetworkDef("", None, None, None, [])

  /** Whether the network `name` can be looked up and named. */
  predicate NetworkNamed(c: Connect, name: string)
    reads c`store
  {
    name in c.store.networks && Call.NetworkLookupByName(name) !in c.fails && Call.NetworkGetName(name) !in c.fails
  }

  /** Whether the network's description can be read and says it serves DHCP. */
  predicate ServesDHCP(c: Connect, name: string)
    reads c`store
  {
    name in c.store.networks && Call.NetworkGetXMLDesc(name) !in c.fails &&
    ClientNetwork.HasDHCP(c.store.networks[name].def)
  }

  /** Why an interface on a DHCP network without an address range is rejected. */
  function ParseRangeError(networkAddress: string): Error {
    Wrap("failed to parse libvirt network ipRange", Fail("invalid CIDR address: " + networkAddress))
  }

  /**
   * The lookup `setNetworkInterfaces` makes: the network by name, its name
   * and its description; a description that cannot be read makes an empty
   * definition (`newDefNetworkfromLibvirt`'s error is not looked at).
   */
  method ReadNetwork(c: Connect, networkName: string) returns (r: Result<NetworkDef>)
    modifies c
    ensures c.store == old(c.store)
    ensures c.Effect(Call.NetworkLookupByName(networkName), networkName in c.store.networks, NoNetwork).Some? ==>
              r == Err(Fail("Can't retrieve network name " + networkName))
    ensures networkName in c.store.networks && Call.NetworkLookupByName(networkName) !in c.fails &&
            Call.NetworkGetName(networkName) in c.fails ==>
              r == Err(Wrap("Error retrieving network name", ErrorOf(c.fails[Call.NetworkGetName(networkName)])))
    ensures r.Ok? <==> NetworkNamed(c, networkName)
    ensures r.Ok? ==> (ClientNetwork.HasDHCP(r.value) <==> ServesDHCP(c, networkName))
  {
    var found := c.NetworkLookupByName(networkName);
    if found.Some? {
      return Err(Fail("Can't retrieve network name " + networkName));
    }
    var name := c.NetworkGetName(networkName);
    if name.Err? {
      return Err(Wrap("Error retrieving network name", name.error));
    }
    var desc := c.NetworkGetXMLDesc(networkName);
    r := Ok(if desc.Ok? then desc.value else EmptyNetworkDef);
  }

  /**
   * The DHCP part of `setNetworkInterfaces`: an address range
   * `networkAddress` (parsed as `networkCIDR`) gives the address at host
   * number `offset` of the range, registered as the static DHCP host of
   * `mac` and `hostname`; without an address range the interface is
   * rejected, since no interface is ever awaiting a lease.
   */
  method RegisterAddress(c: Connect, networkName: string, networkAddress: string, networkCIDR: Option<IPNet>,
                         offset: int64, mac: string, hostname: string)
    returns (err: Outcome)
    modifies c
    ensures networkAddress == "" ==> err == Some(Fail(ClientDomain.NotWaitingMessage(hostname))) && c.store == old(c.store)
    ensures networkAddress != "" && networkCIDR.None? ==> err == Some(ParseRangeError(networkAddress)) && c.store == old(c.store)
    ensures networkAddress != "" && networkCIDR.Some? && GenerateIP(networkCIDR.value, offset).Err? ==>
              err == Some(Wrap("failed to generate ip", GenerateIP(networkCIDR.value, offset).error)) && c.store == old(c.store)
    ensures err.None? ==>
              networkAddress != "" && networkCIDR.Some? && GenerateIP(networkCIDR.value, offset).Ok? &&
              networkName in c.store.networks &&
              DHCPHost(IPString(GenerateIP(networkCIDR.value, offset).value), mac, hostname) in c.store.networks[networkName].hosts
    ensures c.store.domains == old(c.store.domains) && c.store.volumes == old(c.store.volumes)
    ensures c.store.networks - {networkName} == old(c.store.networks) - {networkName}
  {
    if networkAddress == "" {
      return Some(Fail(ClientDomain.NotWaitingMessage(hostname)));
    }
    if networkCIDR.None? {
      return Some(ParseRangeError(networkAddress));
    }
    var ip := GenerateIP(networkCIDR.value, offset);
    if ip.Err? {
      return Some(Wrap("failed to generate ip", ip.error));
    }
    err := UtilsNetwork.UpdateOrAddHost(c, networkName, IPString(ip.value), mac, hostname);
  }

  /**
   * The network part of `setNetworkInterfaces`: `ReadNetwork`, then, on a
   * network that serves DHCP, `RegisterAddress`.
   */
  method JoinNetwork(c: Connect, networkName: string, networkAddress: string, networkCIDR: Option<IPNet>,
                     offset: int64, mac: string, hostname: string)
    returns (err: Outcome)
    modifies c
    ensures old(c.Effect(Call.NetworkLookupByName(networkName), networkName in c.store.networks, NoNetwork)).Some? ==>
              err == Some(Fail("Can't retrieve network name " + networkName)) && c.store == old(c.store)
    ensures networkName in old(c.store.networks) && Call.NetworkLookupByName(networkName) !in c.fails &&
            Call.NetworkGetName(networkName) in c.fails ==>
              err == Some(Wrap("Error retrieving network name", ErrorOf(c.fails[Call.NetworkGetName(networkName)]))) &&
              c.store == old(c.store)
    ensures old(NetworkNamed(c, networkName)) && !old(ServesDHCP(c, networkName)) ==>
              err == None && c.store == old(c.store)
    ensures old(NetworkNamed(c, networkName)) && old(ServesDHCP(c, networkName)) ==>
              (networkAddress == "" ==> err == Some(Fail(ClientDomain.NotWaitingMessage(hostname)))) &&
              (networkAddress != "" && networkCIDR.None? ==> err == Some(ParseRangeError(networkAddress))) &&
              (networkAddress != "" && networkCIDR.Some? && GenerateIP(networkCIDR.value, offset).Err? ==>
                 err == Some(Wrap("failed to generate ip", GenerateIP(networkCIDR.value, offset).error)))
    ensures err.None? && old(ServesDHCP(c, networkName)) ==>
              networkAddress != "" && networkCIDR.Some? && GenerateIP(networkCIDR.value, offset).Ok? &&
              networkName in c.store.networks &&
              DHCPHost(IPString(GenerateIP(networkCIDR.value, offset).value), mac, hostname) in c.store.networks[networkName].hosts
    ensures err.None? ==> old(NetworkNamed(c, networkName))
    ensures c.store.domains == old(c.store.domains) && c.store.volumes == old(c.store.volumes)
    ensures c.store.networks - {networkName} == old(c.store.networks) - {networkName}
  {
    var netDef := ReadNetwork(c, networkName);
    if netDef.Err? {
      return Some(netDef.error);
    }
    if ClientNetwork.HasDHCP(netDef.value) {
      err := RegisterAddress(c, networkName, networkAddress, networkCIDR, offset, mac, hostname);
      return;
    }
    err := None;
  }

  /** `def` is `before` with one more interface, made for the network `networkName`. */
  ghost predicate OneMoreInterface(before: DomainDef, def: DomainDef, networkName: string) {
    |def.devices.interfaces| == |before.devices.interfaces| + 1 &&
    def == before.(devices := before.devices.(interfaces := def.devices.interfaces)) &&
    def.devices.interfaces[..|before.devices.interfaces|] == before.devices.interfaces &&
    ClientDomain.NewInterface(def.devices.interfaces[|before.devices.interfaces|], networkName)
  }

  /**
   * `setNetworkInterfaces` (one interface): a virtio interface with a fresh
   * MAC address (`macBytes`/`macErr` are what `rand.Read` produced) is
   * appended, attached to the network `networkName` when one is named, the
   * network joined as `JoinNetwork` says under the host name given or else
   * the domain's name.  On any error nothing is appended.
   */
  method SetNetworkInterfaces(d: ClientDomain.Domain, c: Connect, macBytes: seq<bv8>, macErr: Outcome,
                              hostnameGiven: string, networkName: string, networkAddress: string,
                              networkCIDR: Option<IPNet>, offset: int64)
    returns (err: Outcome)
    requires |macBytes| == 6
    modifies d, c
    ensures err.Some? ==> d.def == old(d.def)
    ensures err.None? ==> OneMoreInterface(old(d.def), d.def, networkName)
    ensures macErr.Some? ==>
              err == Some(Wrap("Error generating mac address", macErr.value)) && c.trace == old(c.trace) &&
              c.store == old(c.store)
    ensures networkName == "" ==> c.trace == old(c.trace) && c.store == old(c.store) && (err.None? <==> macErr.None?)
    ensures macErr.None? && networkName != "" &&
            old(c.Effect(Call.NetworkLookupByName(networkName), networkName in c.store.networks, NoNetwork)).Some? ==>
              err == Some(Fail("Can't retrieve network name " + networkName))
    ensures macErr.None? && networkName != "" && old(NetworkNamed(c, networkName)) &&
            old(ServesDHCP(c, networkName)) && networkAddress == "" ==>
              err == Some(Fail(ClientDomain.NotWaitingMessage(ClientDomain.Hostname(old(d.def.name), hostnameGiven))))
    ensures macErr.None? && networkName != "" && old(NetworkNamed(c, networkName)) &&
            !old(ServesDHCP(c, networkName)) ==>
              err == None && c.store == old(c.store)
    ensures err.None? && networkName != "" && old(ServesDHCP(c, networkName)) ==>
              networkCIDR.Some? && GenerateIP(networkCIDR.value, offset).Ok? && networkName in c.store.networks &&
              d.def.devices.interfaces[|d.def.devices.interfaces| - 1].mac.Some? &&
              DHCPHost(IPString(GenerateIP(networkCIDR.value, offset).value),
                       d.def.devices.interfaces[|d.def.devices.interfaces| - 1].mac.value,
                       ClientDomain.Hostname(old(d.def.name), hostnameGiven)) in c.store.networks[networkName].hosts
    ensures c.store.domains == old(c.store.domains) && c.store.volumes == old(c.store.volumes)
    ensures c.store.networks - {networkName} == old(c.store.networks) - {networkName}
  {
    var mac := ClientNetwork.RandomMACAddress(macBytes, macErr);
    if mac.Err? {
      return Some(Wrap("Error generating mac address", mac.error));
    }
    var iface := Interface("virtio", Some(mac.value), None);
    if networkName != "" {
      err := JoinNetwork(c, networkName, networkAddress, networkCIDR, offset, mac.value,
                         ClientDomain.Hostname(d.def.name, hostnameGiven));
      if err.Some? {
        return;
      }
      iface := iface.(network := Some(networkName));
    }
    d.def := d.def.(devices := d.def.devices.(interfaces := d.def.devices.interfaces + [iface]));
    err := None;
  }

  // ----- creating a domain -----

  /**
   * The arguments of `CreateDomain`.  `networkCIDR` is what `net.ParseCIDR`
   * makes of `networkInterfaceAddress`; `cloudInit` is the optional
   * cloud-init configuration.
   */
  datatype CreateDomainArgs = CreateDomainArgs(
    name: string, ignKey: string, volumeName: string, hostName: string,
    networkInterfaceName: string, networkInterfaceAddress: string, networkCIDR: Option<IPNet>,
    autostart: bool, memory: int64, vcpu: int64, offset: int64,
    cloudInit: Option<LegacyCloudInit.CloudInitConfig>, machineNamespace: string)

  /**
   * What the world outside libvirt supplies while a domain is created: the
   * TERRAFORM_LIBVIRT_TEST_DOMAIN_TYPE variable, the Kubernetes secrets and
   * the random MAC bytes (or the error reading them).
   */
  datatype World = World(domainTypeEnv: string, secrets: Secrets, macBytes: seq<bv8>, macErr: Outcome)

  /** The key the machine's disk is looked up by: the volume name under the images directory. */
  function VolumeKey(volumeName: string): string {
    BaseVolumePath + volumeName
  }

  /**
   * The command line cloud-init leaves in place of `before`: `before` itself
   * without a secret, the secret's user data in numbered pieces with a
   * secret that can be read.
   */
  ghost predicate CloudInitArgs(ci: LegacyCloudInit.CloudInitConfig, secrets: Secrets, namespace: string,
                                before: Option<seq<string>>, qemuArgs: Option<seq<string>>) {
    (ci.userDataSecret == "" ==> qemuArgs == before) &&
    (ci.userDataSecret != "" ==>
       GetSecret(secrets, namespace, ci.userDataSecret).Ok? &&
       qemuArgs == Some(LegacyCloudInit.UserDataArgs(GetSecret(secrets, namespace, ci.userDataSecret).value)))
  }

  /**
   * What a definition built for `args` from the host skeleton `base` holds
   * before its network interface is added: the name, memory in MiB and vCPU
   * count of the arguments; the Ignition key on the firmware-configuration
   * command line, or else the cloud-init ISO as a cdrom and the user data of
   * its secret on the command line; and, last, disk vda backed by the
   * machine's volume.  Everything else is the skeleton's.
   */
  ghost predicate Booted(args: CreateDomainArgs, secrets: Secrets, base: DomainDef, def: DomainDef) {
    def == base.(name := args.name, memory := Memory(ToUint64(args.memory), "MiB"), vcpu := VCPU("", args.vcpu),
                 qemuArgs := def.qemuArgs, devices := base.devices.(disks := def.devices.disks)) &&
    (args.ignKey != "" ==>
       def.qemuArgs == Some(ClientDomain.FwCfgArgs(args.ignKey)) &&
       def.devices.disks == [RootDisk(VolumeKey(args.volumeName))]) &&
    (args.ignKey == "" ==>
       args.cloudInit.Some? && args.cloudInit.value.isoImagePath != "" &&
       CloudInitArgs(args.cloudInit.value, secrets, args.machineNamespace, None, def.qemuArgs) &&
       def.devices.disks == [ClientCloudInit.CdromDisk(args.cloudInit.value.isoImagePath),
                             RootDisk(VolumeKey(args.volumeName))])
  }

  /** A booted definition with one network interface, made for the named network. */
  ghost predicate Dressed(args: CreateDomainArgs, secrets: Secrets, base: DomainDef, def: DomainDef) {
    |def.devices.interfaces| == 1 && ClientDomain.NewInterface(def.devices.interfaces[0], args.networkInterfaceName) &&
    Booted(args, secrets, base, def.(devices := def.devices.(interfaces := base.devices.interfaces)))
  }

  /**
   * The static DHCP host of the interface with MAC `mac`: the address at
   * host number `offset` of the range, under the host name given or else
   * the domain's name.
   */
  ghost predicate HostRegistered(c: Connect, args: CreateDomainArgs, mac: string)
    reads c`store
  {
    args.networkCIDR.Some? && GenerateIP(args.networkCIDR.value, args.offset).Ok? &&
    args.networkInterfaceName in c.store.networks &&
    DHCPHost(IPString(GenerateIP(args.networkCIDR.value, args.offset).value), mac,
             ClientDomain.Hostname(args.name, args.hostName)) in c.store.networks[args.networkInterfaceName].hosts
  }

  /**
   * The bootstrap step of `CreateDomain`: the Ignition key when there is
   * one, else cloud-init when it is configured, else an error.
   */
  method Bootstrap(d: ClientDomain.Domain, args: CreateDomainArgs, secrets: Secrets) returns (err: Outcome)
    modifies d
    ensures args.ignKey == "" && args.cloudInit.None? ==> err == Some(ClientClient.NoStrategyError)
    ensures args.ignKey != "" ==> err == None && d.def == old(d.def).(qemuArgs := Some(ClientDomain.FwCfgArgs(args.ignKey)))
    ensures args.ignKey == "" && args.cloudInit.Some? && args.cloudInit.value.isoImagePath == "" ==>
              err == Some(LegacyCloudInit.EmptyISOError)
    ensures args.ignKey == "" && err.None? ==>
              args.cloudInit.Some? && args.cloudInit.value.isoImagePath != "" &&
              CloudInitArgs(args.cloudInit.value, secrets, args.machineNamespace, old(d.def.qemuArgs), d.def.qemuArgs) &&
              d.def == old(d.def).(qemuArgs := d.def.qemuArgs,
                                   devices := old(d.def).devices.(disks := old(d.def).devices.disks +
                                                                  [ClientCloudInit.CdromDisk(args.cloudInit.value.isoImagePath)]))
  {
    if args.ignKey != "" {
      err := SetCoreOSIgnition(d, args.ignKey);
    } else if args.cloudInit.Some? {
      err := LegacyCloudInit.SetCloudInit(d, args.cloudInit.value, secrets, args.machineNamespace);
    } else {
      err := Some(ClientClient.NoStrategyError);
    }
  }

  const InitContext := "Failed to init domain definition from machineProviderConfig"

  /**
   * The steps of `CreateDomain` between the host skeleton and the network
   * interface: `domainDefInit`, the bootstrap configuration and `setDisks`
   * for the machine's volume, stopping at the first failure.
   */
  method Prepare(d: ClientDomain.Domain, c: Connect, args: CreateDomainArgs, secrets: Secrets) returns (err: Outcome)
    requires args.name != "" && d.def.devices.disks == [] && d.def.qemuArgs == None
    modifies d, c
    ensures c.store == old(c.store)
    ensures args.memory == 0 ==> err == Some(Wrap(InitContext, Fail("machine does not have an DomainMemory set")))
    ensures args.memory != 0 && args.vcpu == 0 ==>
              err == Some(Wrap(InitContext, Fail("machine does not have an DomainVcpu set")))
    ensures args.memory != 0 && args.vcpu != 0 && args.ignKey == "" && args.cloudInit.None? ==>
              err == Some(ClientClient.NoStrategyError)
    ensures err.None? ==> KeyReadable(c, VolumeKey(args.volumeName)) && Booted(args, secrets, old(d.def), d.def)
  {
    var e := DomainDefInit(d, args.name, args.memory, args.vcpu);
    if e.Some? {
      return Some(Wrap(InitContext, e.value));
    }
    ghost var init := d.def;
    err := Bootstrap(d, args, secrets);
    if err.Some? {
      return;
    }
    ghost var booted := d.def;
    e := SetDisks(d, c, VolumeKey(args.volumeName));
    if e.Some? {
      return Some(Wrap("Failed to setDisks", e.value));
    }
    assert d.def.devices.disks == booted.devices.disks + [RootDisk(VolumeKey(args.volumeName))];
    err := None;
  }

  /**
   * `Prepare`, then `setNetworkInterfaces` with the host name defaulting to
   * the domain name and the fixed host number `offset`.
   */
  method Dress(d: ClientDomain.Domain, c: Connect, args: CreateDomainArgs, w: World) returns (err: Outcome)
    requires |w.macBytes| == 6
    requires args.name != "" && d.def.devices.disks == [] && d.def.devices.interfaces == [] && d.def.qemuArgs == None
    modifies d, c
    ensures c.store.domains == old(c.store.domains) && c.store.volumes == old(c.store.volumes)
    ensures args.memory != 0 && args.vcpu != 0 && args.ignKey == "" && args.cloudInit.None? ==>
              err == Some(ClientClient.NoStrategyError) && c.store == old(c.store)
    ensures err.None? ==> Dressed(args, w.secrets, old(d.def), d.def)
    ensures err.None? && args.networkInterfaceName != "" && old(ServesDHCP(c, args.networkInterfaceName)) ==>
              HostRegistered(c, args, d.def.devices.interfaces[0].mac.value)
  {
    err := Prepare(d, c, args, w.secrets);
    if err.Some? {
      return;
    }
    ghost var booted := d.def;
    var hostname := ClientDomain.Hostname(args.name, args.hostName);
    assert ClientDomain.Hostname(d.def.name, hostname) == hostname;
    err := SetNetworkInterfaces(d, c, w.macBytes, w.macErr, hostname, args.networkInterfaceName,
                                args.networkInterfaceAddress, args.networkCIDR, args.offset);
    if err.None? {
      assert d.def.(devices := d.def.devices.(interfaces := [])) == booted;
    }
  }

  /** Whether define, autostart and start of the domain `name` all succeed. */
  predicate Starts(c: Connect, name: string) {
    Call.DomainDefineXML(name) !in c.fails && Call.DomainSetAutostart(name) !in c.fails &&
    Call.DomainCreate(name) !in c.fails
  }

  /** The error of the first of define, autostart and start of the domain `name` that fails. */
  function StartError(c: Connect, name: string): (e: Outcome)
    ensures e.None? <==> Starts(c, name)
  {
    if Call.DomainDefineXML(name) in c.fails then
      Some(Wrap("error defining libvirt domain", ErrorOf(c.fails[Call.DomainDefineXML(name)])))
    else if Call.DomainSetAutostart(name) in c.fails then
      Some(Wrap("error setting Autostart", ErrorOf(c.fails[Call.DomainSetAutostart(name)])))
    else if Call.DomainCreate(name) in c.fails then
      Some(Wrap("error creating libvirt domain", ErrorOf(c.fails[Call.DomainCreate(name)])))
    else None
  }

  /**
   * The store `after` define, autostart and start of `def` from `before`:
   * nothing changes when the define fails; otherwise the definition is
   * stored, shut off, with the autostart flag once that is set, and running
   * once it is started.
   */
  ghost predicate StartedFrom(c: Connect, before: Store, after: Store, def: DomainDef, autostart: bool) {
    var define := Call.DomainDefineXML(def.name);
    var flag := Call.DomainSetAutostart(def.name);
    var start := Call.DomainCreate(def.name);
    (define in c.fails ==> after == before) &&
    (define !in c.fails && flag in c.fails ==>
       after == before.(domains := before.domains[def.name := DomainRecord(def, Shutoff, false)])) &&
    (define !in c.fails && flag !in c.fails && start in c.fails ==>
       after == before.(domains := before.domains[def.name := DomainRecord(def, Shutoff, autostart)])) &&
    (Starts(c, def.name) ==>
       after == before.(domains := before.domains[def.name := DomainRecord(def, Running, autostart)]))
  }

  /** Defines `def`, sets its autostart flag and starts it, stopping at the first failure. */
  method DefineAndStart(c: Connect, def: DomainDef, autostart: bool) returns (err: Outcome)
    modifies c
    ensures err == StartError(c, def.name)
    ensures StartedFrom(c, old(c.store), c.store, def, autostart)
  {
    err := c.DomainDefineXML(def);
    if err.Some? {
      return Some(Wrap("error defining libvirt domain", err.value));
    }
    err := c.DomainSetAutostart(def.name, autostart);
    if err.Some? {
      return Some(Wrap("error setting Autostart", err.value));
    }
    err := c.DomainCreate(def.name);
    if err.Some? {
      return Some(Wrap("error creating libvirt domain", err.value));
    }
  }

  /**
   * The last steps of `CreateDomain`: read the connection URI, define,
   * configure and start the domain, and read its UUID.  A domain that was
   * defined stays defined when a later step fails, and stays running when
   * only the UUID cannot be read.
   */
  method Launch(c: Connect, def: DomainDef, autostart: bool) returns (err: Outcome)
    modifies c
    ensures Call.GetURI in c.fails ==>
              err == Some(Wrap("error retrieving libvirt connection URI", ErrorOf(c.fails[Call.GetURI]))) &&
              c.store == old(c.store)
    ensures c.store.volumes == old(c.store.volumes) && c.store.networks == old(c.store.networks)
    ensures c.store.domains - {def.name} == old(c.store.domains) - {def.name}
    ensures Call.GetURI !in c.fails && Call.DomainDefineXML(def.name) in c.fails ==> c.store == old(c.store)
    ensures Call.GetURI !in c.fails && Call.DomainDefineXML(def.name) !in c.fails ==>
              def.name in c.store.domains && c.store.domains[def.name].def == def &&
              (Starts(c, def.name) <==> c.store.domains[def.name].state == Running)
    ensures Call.GetURI !in c.fails && Starts(c, def.name) ==>
              c.store.domains[def.name] == DomainRecord(def, Running, autostart)
    ensures Call.GetURI !in c.fails && !Starts(c, def.name) ==> err == StartError(c, def.name)
    ensures Call.GetURI !in c.fails && Starts(c, def.name) && Call.DomainGetUUID(def.name) in c.fails ==>
              err == Some(Wrap("error retrieving libvirt domain id", ErrorOf(c.fails[Call.DomainGetUUID(def.name)])))
    ensures err.None? <==> Call.GetURI !in c.fails && Starts(c, def.name) && Call.DomainGetUUID(def.name) !in c.fails
  {
    var uri := c.GetURI();
    if uri.Err? {
      return Some(Wrap("error retrieving libvirt connection URI", uri.error));
    }
    err := DefineAndStart(c, def, autostart);
    assert c.store.domains - {def.name} == old(c.store.domains) - {def.name};
    if err.Some? {
      return;
    }
    var id := c.DomainGetUUID(def.name);
    if id.Err? {
      return Some(Wrap("error retrieving libvirt domain id", id.error));
    }
  }

  /**
   * `CreateDomain` from the host skeleton `base` on: the definition is
   * filled in and dressed as `Dress` says, then defined and started as
   * `Launch` says.
   */
  method BuildAndLaunch(c: Connect, args: CreateDomainArgs, w: World, base: DomainDef) returns (err: Outcome)
    requires |w.macBytes| == 6
    requires args.name != "" && base.devices.disks == [] && base.devices.interfaces == [] && base.qemuArgs == None
    modifies c
    ensures args.memory != 0 && args.vcpu != 0 && args.ignKey == "" && args.cloudInit.None? ==>
              err == Some(ClientClient.NoStrategyError) && c.store == old(c.store)
    ensures c.store.volumes == old(c.store.volumes)
    ensures c.store.domains - {args.name} == old(c.store.domains) - {args.name}
    ensures err.None? ==>
              args.name in c.store.domains &&
              c.store.domains[args.name].state == Running && c.store.domains[args.name].autostart == args.autostart &&
              Dressed(args, w.secrets, base, c.store.domains[args.name].def)
    ensures err.None? && args.networkInterfaceName != "" && old(ServesDHCP(c, args.networkInterfaceName)) ==>
              HostRegistered(c, args, c.store.domains[args.name].def.devices.interfaces[0].mac.value)
  {
    var d := new ClientDomain.Domain(base);
    err := Dress(d, c, args, w);
    if err.Some? {
      return;
    }
    assert d.def.name == args.name;
    ghost var registered := c.store;
    err := Launch(c, d.def, args.autostart);
    assert c.store.networks == registered.networks;
  }

  /**
   * `CreateDomain(...)` on the connection `c`: builds the definition for
   * the host, fills it from the arguments, attaches the bootstrap
   * configuration, the machine's disk and one network interface, and
   * defines, configures and starts the domain.
   */
  method CreateDomain(c: Connect, args: CreateDomainArgs, w: World) returns (err: Outcome)
    requires |w.macBytes| == 6
    modifies c
    ensures args.name == "" ==>
              err == Some(ClientClient.EmptyNameError) && c.store == old(c.store) && c.trace == old(c.trace)
    ensures args.name != "" && Call.GetCapabilities in c.fails ==>
              err == Some(Wrap("Failed to newDomainDefForConnection", ErrorOf(c.fails[Call.GetCapabilities]))) &&
              c.store == old(c.store)
    ensures args.name != "" && Call.GetCapabilities !in c.fails && HostDef(c.caps, w.domainTypeEnv).Err? ==>
              err == Some(Wrap("Failed to newDomainDefForConnection", HostDef(c.caps, w.domainTypeEnv).error)) &&
              c.store == old(c.store)
    ensures args.name != "" && Call.GetCapabilities !in c.fails && HostDef(c.caps, w.domainTypeEnv).Ok? &&
            args.memory != 0 && args.vcpu != 0 && args.ignKey == "" && args.cloudInit.None? ==>
              err == Some(ClientClient.NoStrategyError) && c.store == old(c.store)
    ensures c.store.volumes == old(c.store.volumes)
    ensures c.store.domains - {args.name} == old(c.store.domains) - {args.name}
    ensures err.None? ==>
              HostDef(c.caps, w.domainTypeEnv).Ok? && args.name in c.store.domains &&
              c.store.domains[args.name].state == Running && c.store.domains[args.name].autostart == args.autostart &&
              Dressed(args, w.secrets, HostDef(c.caps, w.domainTypeEnv).value, c.store.domains[args.name].def)
    ensures err.None? && args.networkInterfaceName != "" && old(ServesDHCP(c, args.networkInterfaceName)) ==>
              HostRegistered(c, args, c.store.domains[args.name].def.devices.interfaces[0].mac.value)
  {
    if args.name == "" {
      return Some(ClientClient.EmptyNameError);
    }
    var base := NewDomainDefForConnection(c, w.domainTypeEnv);
    if base.Err? {
      return Some(Wrap("Failed to newDomainDefForConnection", base.error));
    }
    err := BuildAndLaunch(c, args, w, base.value);
  }

  // ----- looking up and deleting domains -----

  /** The answer of looking the domain `name` up on `c`. */
  function DomainAnswer(c: Connect, name: string): (r: Result<DomainRecord>)
    reads c`store
    ensures Call.DomainLookupByName(name) in c.fails ==> r == Err(ErrorOf(c.fails[Call.DomainLookupByName(name)]))
    ensures Call.DomainLookupByName(name) !in c.fails ==>
              (r.Ok? <==> name in c.store.domains) && (r.Ok? ==> r.value == c.store.domains[name]) &&
              (r.Err? ==> ClientClient.IsNotFound(r.error))
  {
    c.Answer(Call.DomainLookupByName(name), if name in c.store.domains then Some(c.store.domains[name]) else None,
             NoDomain)
  }

  /** `LookupDomainByName(name, client)`: the lookup's answer, or the nil-connection error. */
  method LookupDomainByName(c: Connect?, name: string) returns (r: Result<DomainRecord>)
    modifies c
    ensures c == null ==> r == Err(ConnIsNil)
    ensures c != null ==> c.store == old(c.store) && c.trace == old(c.trace) + [Call.DomainLookupByName(name)]
    ensures c != null ==> r == DomainAnswer(c, name)
  {
    if c == null {
      return Err(ConnIsNil);
    }
    r := c.DomainLookupByName(name);
  }

  /** `DomainExists(name, client)`: "no such domain" is a plain no, any other lookup failure is returned. */
  method DomainExists(c: Connect?, name: string) returns (exists_: bool, err: Outcome)
    modifies c
    ensures c == null ==> !exists_ && err == Some(ConnIsNil)
    ensures c != null ==> c.store == old(c.store) && c.trace == old(c.trace) + [Call.DomainLookupByName(name)]
    ensures c != null ==> (exists_ <==> DomainAnswer(c, name).Ok?)
    ensures c != null ==>
              (err.None? <==> DomainAnswer(c, name).Ok? || ClientClient.IsNotFound(DomainAnswer(c, name).error))
    ensures c != null && err.Some? ==> err == Some(DomainAnswer(c, name).error)
    ensures c != null && Call.DomainLookupByName(name) !in c.fails ==>
              err == None && (exists_ <==> name in c.store.domains)
  {
    if c == null {
      return false, Some(ConnIsNil);
    }
    var d := c.DomainLookupByName(name);
    if d.Err? {
      if ClientClient.IsNotFound(d.error) {
        return false, None;
      }
      return false, Some(d.error);
    }
    return true, None;
  }

  /**
   * The undefine step of `DeleteDomain`: with the NVRAM flag, and again
   * without flags when libvirt does not support the flag.
   */
  method Undefine(c: Connect, name: string) returns (err: Outcome, ghost calls: seq<Call>)
    requires name in c.store.domains
    modifies c
    ensures c.trace == old(c.trace) + calls
    ensures calls == [Call.DomainUndefineFlags(name)] +
                     if Call.DomainUndefineFlags(name) in c.fails &&
                        ClientClient.NoFlagSupport(ErrorOf(c.fails[Call.DomainUndefineFlags(name)]))
                     then [Call.DomainUndefine(name)] else []
    ensures err.None? <==> Call.DomainUndefineFlags(name) !in c.fails ||
                           (ClientClient.NoFlagSupport(ErrorOf(c.fails[Call.DomainUndefineFlags(name)])) &&
                            Call.DomainUndefine(name) !in c.fails)
    ensures Call.DomainUndefineFlags(name) in c.fails &&
            !ClientClient.NoFlagSupport(ErrorOf(c.fails[Call.DomainUndefineFlags(name)])) ==>
              err == Some(Wrap("Couldn't undefine libvirt domain with flags", ErrorOf(c.fails[Call.DomainUndefineFlags(name)])))
    ensures Call.DomainUndefineFlags(name) in c.fails &&
            ClientClient.NoFlagSupport(ErrorOf(c.fails[Call.DomainUndefineFlags(name)])) &&
            Call.DomainUndefine(name) in c.fails ==>
              err == Some(Wrap("Couldn't undefine libvirt domain", ErrorOf(c.fails[Call.DomainUndefine(name)])))
    ensures c.store == if err.None? then old(c.store).(domains := old(c.store.domains) - {name}) else old(c.store)
  {
    var e := c.DomainUndefineFlags(name);
    calls := [Call.DomainUndefineFlags(name)];
    if e.Some? {
      if ClientClient.NoFlagSupport(e.value) {
        var e2 := c.DomainUndefine(name);
        calls := calls + [Call.DomainUndefine(name)];
        if e2.Some? {
          return Some(Wrap("Couldn't undefine libvirt domain", e2.value)), calls;
        }
      } else {
        return Some(Wrap("Couldn't undefine libvirt domain with flags", e.value)), calls;
      }
    }
    err := None;
  }

  /** Destroys a running or paused domain, then undefines it. */
  method DestroyThenUndefine(c: Connect, name: string, active: bool) returns (err: Outcome, ghost calls: seq<Call>)
    requires name in c.store.domains && active == ClientClient.Active(c.store.domains[name].state)
    modifies c
    ensures c.trace == old(c.trace) + calls
    ensures Call.DomainLookupByName(name) !in calls && Call.DomainGetState(name) !in calls
    ensures Call.DomainDestroy(name) in calls <==> active
    ensures Call.DomainDestroy(name) in c.fails && active ==>
              c.store == old(c.store) &&
              err == Some(Wrap("Couldn't destroy libvirt domain", ErrorOf(c.fails[Call.DomainDestroy(name)])))
    ensures Call.DomainUndefineFlags(name) in calls <==> (active ==> Call.DomainDestroy(name) !in c.fails)
    ensures err.None? ==> Call.DomainUndefineFlags(name) in calls &&
                          c.store == old(c.store).(domains := old(c.store.domains) - {name})
    ensures c.store.volumes == old(c.store.volumes) && c.store.networks == old(c.store.networks)
    ensures c.store.domains - {name} == old(c.store.domains) - {name}
  {
    calls := [];
    if active {
      var d := c.DomainDestroy(name);
      calls := [Call.DomainDestroy(name)];
      if d.Some? {
        return Some(Wrap("Couldn't destroy libvirt domain", d.value)), calls;
      }
    }
    ghost var more;
    err, more := Undefine(c, name);
    calls := calls + more;
  }

  /** The steps of `DeleteDomain` after the lookup: read the state, destroy an active domain, undefine it. */
  method StopAndUndefine(c: Connect, name: string) returns (err: Outcome, ghost calls: seq<Call>)
    requires name in c.store.domains
    modifies c
    ensures c.trace == old(c.trace) + calls
    ensures Call.DomainLookupByName(name) !in calls
    ensures Call.DomainGetState(name) in c.fails ==>
              c.store == old(c.store) &&
              err == Some(Wrap("Couldn't get info about domain", ErrorOf(c.fails[Call.DomainGetState(name)])))
    ensures Call.DomainDestroy(name) in calls <==>
              Call.DomainGetState(name) !in c.fails && ClientClient.Active(old(c.store.domains[name].state))
    ensures Call.DomainDestroy(name) in c.fails && Call.DomainDestroy(name) in calls ==>
              c.store == old(c.store) &&
              err == Some(Wrap("Couldn't destroy libvirt domain", ErrorOf(c.fails[Call.DomainDestroy(name)])))
    ensures Call.DomainUndefineFlags(name) in calls <==>
              Call.DomainGetState(name) !in c.fails &&
              (ClientClient.Active(old(c.store.domains[name].state)) ==> Call.DomainDestroy(name) !in c.fails)
    ensures err.None? ==> Call.DomainUndefineFlags(name) in calls &&
                          c.store == old(c.store).(domains := old(c.store.domains) - {name})
    ensures c.store.volumes == old(c.store.volumes) && c.store.networks == old(c.store.networks)
    ensures c.store.domains - {name} == old(c.store.domains) - {name}
  {
    var state := c.DomainGetState(name);
    calls := [Call.DomainGetState(name)];
    if state.Err? {
      return Some(Wrap("Couldn't get info about domain", state.error)), calls;
    }
    ghost var rest;
    err, rest := DestroyThenUndefine(c, name, ClientClient.Active(state.value));
    calls := calls + rest;
  }

  /**
   * `DeleteDomain(name, client)`: the domain is looked up (any failure,
   * "no such domain" included, is wrapped), destroyed when it is running or
   * paused, and undefined.
   */
  method DeleteDomain(c: Connect?, name: string) returns (err: Outcome, ghost calls: seq<Call>)
    modifies c
    ensures c == null ==> err == Some(ConnIsNil) && calls == []
    ensures c != null ==> c.trace == old(c.trace) + calls
    ensures c != null && old(DomainAnswer(c, name)).Err? ==>
              c.store == old(c.store) && calls == [Call.DomainLookupByName(name)] &&
              err == Some(Wrap("Error retrieving libvirt domain", old(DomainAnswer(c, name)).error))
    ensures c != null && old(DomainAnswer(c, name)).Ok? && Call.DomainGetState(name) in c.fails ==>
              c.store == old(c.store) &&
              err == Some(Wrap("Couldn't get info about domain", ErrorOf(c.fails[Call.DomainGetState(name)])))
    ensures Call.DomainDestroy(name) in calls <==>
              c != null && old(DomainAnswer(c, name)).Ok? && Call.DomainGetState(name) !in c.fails &&
              ClientClient.Active(old(c.store.domains[name].state))
    ensures c != null && Call.DomainDestroy(name) in c.fails && Call.DomainDestroy(name) in calls ==>
              c.store == old(c.store) &&
              err == Some(Wrap("Couldn't destroy libvirt domain", ErrorOf(c.fails[Call.DomainDestroy(name)])))
    ensures Call.DomainUndefineFlags(name) in calls <==>
              c != null && old(DomainAnswer(c, name)).Ok? && Call.DomainGetState(name) !in c.fails &&
              (ClientClient.Active(old(c.store.domains[name].state)) ==> Call.DomainDestroy(name) !in c.fails)
    ensures c != null && err.None? ==>
              name in old(c.store.domains) && c.store == old(c.store).(domains := old(c.store.domains) - {name})
    ensures c != null ==>
              c.store.volumes == old(c.store.volumes) && c.store.networks == old(c.store.networks) &&
              c.store.domains - {name} == old(c.store.domains) - {name}
  {
    if c == null {
      return Some(ConnIsNil), [];
    }
    var domain := c.DomainLookupByName(name);
    calls := [Call.DomainLookupByName(name)];
    if domain.Err? {
      return Some(Wrap("Error retrieving libvirt domain", domain.error)), calls;
    }
    ghost var rest;
    err, rest := StopAndUndefine(c, name);
    calls := calls + rest;
  }

  // ----- node addresses and state names -----

  /** `corev1.NodeAddress`: the kind of address and the address. */
  datatype NodeAddress = NodeAddress(addressType: string, address: string)

  /** `corev1.NodeInternalIP`. */
  const NodeInternalIP := "InternalIP"

  /** The addresses of one interface, each as an internal IP. */
  function Tagged(addrs: seq<string>): (r: seq<NodeAddress>)
    ensures |r| == |addrs|
    ensures forall j :: 0 <= j < |addrs| ==> r[j] == NodeAddress(NodeInternalIP, addrs[j])
  {
    seq(|addrs|, j requires 0 <= j < |addrs| => NodeAddress(NodeInternalIP, addrs[j]))
  }

  /** The addresses of the interfaces `ifaces`, interface by interface, each as an internal IP. */
  function InternalIPs(ifaces: seq<seq<string>>): (r: seq<NodeAddress>)
  {
    if |ifaces| == 0 then [] else InternalIPs(ifaces[..|ifaces| - 1]) + Tagged(ifaces[|ifaces| - 1])
  }

  /** Whether `a` is one of the addresses of the interfaces `ifaces`. */
  predicate HasAddress(ifaces: seq<seq<string>>, a: string) {
    exists i, j :: 0 <= i < |ifaces| && 0 <= j < |ifaces[i]| && ifaces[i][j] == a
  }

  /**
   * Every node address is an internal IP, and the node addresses are
   * exactly the interfaces' addresses.
   */
  lemma {:induction false} InternalIPsAre(ifaces: seq<seq<string>>, a: string)
    ensures forall k :: 0 <= k < |InternalIPs(ifaces)| ==> InternalIPs(ifaces)[k].addressType == NodeInternalIP
    ensures NodeAddress(NodeInternalIP, a) in InternalIPs(ifaces) <==> HasAddress(ifaces, a)
  {
    if |ifaces| > 0 {
      var init := ifaces[..|ifaces| - 1];
      var last := ifaces[|ifaces| - 1];
      InternalIPsAre(init, a);
      assert InternalIPs(ifaces) == InternalIPs(init) + Tagged(last);
      if HasAddress(ifaces, a) {
        var i, j :| 0 <= i < |ifaces| && 0 <= j < |ifaces[i]| && ifaces[i][j] == a;
        if i < |ifaces| - 1 {
          assert init[i][j] == a;
        } else {
          assert Tagged(last)[j] == NodeAddress(NodeInternalIP, a);
        }
      }
      if NodeAddress(NodeInternalIP, a) in Tagged(last) {
        var j :| 0 <= j < |last| && Tagged(last)[j] == NodeAddress(NodeInternalIP, a);
        assert ifaces[|ifaces| - 1][j] == a;
      }
      if HasAddress(init, a) {
        var i, j :| 0 <= i < |init| && 0 <= j < |init[i]| && init[i][j] == a;
        assert ifaces[i][j] == a;
      }
    }
  }

  /** The answer of reading the lease addresses of the domain `name`'s interfaces. */
  function InterfacesAnswer(c: Connect, name: string): Result<seq<seq<string>>>
    reads c`store
  {
    c.Answer(Call.DomainInterfaceAddresses(name),
             if name !in c.store.domains then None
             else if name in c.addresses then Some(c.addresses[name]) else Some([]), NoDomain)
  }

  /**
   * `NodeAddresses(dom)`: no addresses for no domain; otherwise every
   * address of every interface, from the DHCP leases, as an internal IP, or
   * the error reading them.
   */
  method NodeAddresses(c: Connect, dom: Option<string>) returns (r: Result<seq<NodeAddress>>)
    modifies c
    ensures c.store == old(c.store)
    ensures dom.None? ==> r == Ok([]) && c.trace == old(c.trace)
    ensures dom.Some? ==> c.trace == old(c.trace) + [Call.DomainInterfaceAddresses(dom.value)]
    ensures dom.Some? && InterfacesAnswer(c, dom.value).Err? ==> r == Err(InterfacesAnswer(c, dom.value).error)
    ensures dom.Some? && InterfacesAnswer(c, dom.value).Ok? ==> r == Ok(InternalIPs(InterfacesAnswer(c, dom.value).value))
  {
    if dom.None? {
      return Ok([]);
    }
    var ifaces := c.DomainInterfaceAddresses(dom.value);
    if ifaces.Err? {
      return Err(ifaces.error);
    }
    var all := ifaces.value;
    var addrs: seq<NodeAddress> := [];
    for i := 0 to |all|
      invariant addrs == InternalIPs(all[..i])
    {
      var iface := all[i];
      for j := 0 to |iface|
        invariant addrs == InternalIPs(all[..i]) + Tagged(iface[..j])
      {
        assert Tagged(iface[..j + 1]) == Tagged(iface[..j]) + [NodeAddress(NodeInternalIP, iface[j])];
        addrs := addrs + [NodeAddress(NodeInternalIP, iface[j])];
      }
      assert iface[..|iface|] == iface;
      assert all[..i + 1][..i] == all[..i];
    }
    assert all[..|all|] == all;
    r := Ok(addrs);
  }

  /**
   * `DomainStateString(state)`: the name of a libvirt domain state, and
   * "Unknown" for any number that is not one.
   */
  function DomainStateString(state: int): (s: string)
    ensures s == "Unknown" <==> !(NoState <= state <= PMSuspended)
  {
    if state == NoState then "None"
    else if state == Running then "Running"
    else if state == Blocked then "Blocked"
    else if state == Paused then "Paused"
    else if state == Shutdown then "Shutdown"
    else if state == Crashed then "Crashed"
    else if state == PMSuspended then "Suspended"
    else if state == Shutoff then "Shutoff"
    else "Unknown"
  }

  /** Different states have different names, so a name tells the state. */
  lemma DomainStateStringsDiffer(s1: int, s2: int)
    requires NoState <= s1 <= PMSuspended && NoState <= s2 <= PMSuspended && s1 != s2
    ensures DomainStateString(s1) != DomainStateString(s2)
  {
  }
}
