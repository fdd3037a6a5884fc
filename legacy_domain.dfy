// The domain helpers of the first machine-actuator generation.  The
// definition skeleton, `domainDefInit`, `setCoreOSIgnition`, the guest and
// machine lookups, the disk letters, `setNetworkInterfaces` and the
// define-and-start tail are the same code as the later generation's and are
// modelled once, in `UtilsDomain` and `ClientDomain`.  What differs is
// modelled here: the Ignition volume and the disk are found by name in a
// pool, `setDisks` is handed the volume itself, and a nil connection is
// reported with a plain error rather than a sentinel.

module LegacyDomain {
  import opened Wrappers
  import opened Cidr
  import opened LibvirtXml
  import opened Hypervisor
  import ClientDomain
  import ClientClient
  import UtilsDomain
  import LegacyVolume

  /** The nil-connection error: here a plain error made from the message, not a sentinel value. */
  const NilConnectionError := Fail("the libvirt connection was nil")

  const NoIgnKeyError := Fail("machine does not has a IgnKey value")

  /**
   * The arguments of `CreateDomain(name, ignKey, poolName, volumeName, ...)`.
   * `networkCIDR` is what `net.ParseCIDR` makes of `networkInterfaceAddress`.
   */
  datatype CreateDomainArgs = CreateDomainArgs(
    name: string, ignKey: string, poolName: string, volumeName: string, hostName: string,
    networkInterfaceName: string, networkInterfaceAddress: string, networkCIDR: Option<IPNet>,
    autostart: bool, memory: int64, vcpu: int64, offset: int64)

  /** Whether the path of the volume with key `key` can be read. */
  predicate PathReadable(c: Connect, key: string)
    reads c`store
  {
    key in c.store.volumes && Call.VolGetPath(key) !in c.fails
  }

  /**
   * `setDisks(domainDef, volume)`: disk vda backed by the volume's path is
   * appended to the definition.
   */
  method SetDisks(d: ClientDomain.Domain, c: Connect, key: string) returns (err: Outcome)
    modifies d, c
    ensures c.store == old(c.store) && c.trace == old(c.trace) + [Call.VolGetPath(key)]
    ensures err.None? <==> PathReadable(c, key)
    ensures err.None? ==>
              d.def == old(d.def).(devices := old(d.def).devices.(disks := old(d.def).devices.disks + [UtilsDomain.RootDisk(key)]))
    ensures err.Some? ==> d.def == old(d.def)
    ensures Call.VolGetPath(key) in c.fails ==>
              err == Some(Wrap("Error retrieving volume file", ErrorOf(c.fails[Call.VolGetPath(key)])))
  {
    var disk := ClientDomain.NewDefDisk(0);
    var path := c.VolGetPath(key);
    if path.Err? {
      return Some(Wrap("Error retrieving volume file", path.error));
    }
    disk := disk.(source := Some(path.value));
    d.def := d.def.(devices := d.def.devices.(disks := d.def.devices.disks + [disk]));
    err := None;
  }

  /** Whether the Ignition volume of `args` can be found and its path read. */
  predicate IgnitionReadable(c: Connect, args: CreateDomainArgs)
    reads c`store
  {
    LegacyVolume.Exists(c, args.poolName, args.ignKey) && PathReadable(c, c.KeyIn(args.poolName, args.ignKey))
  }

  /** Whether the disk volume of `args` can be found and its path read. */
  predicate DiskReadable(c: Connect, args: CreateDomainArgs)
    reads c`store
  {
    LegacyVolume.Exists(c, args.poolName, args.volumeName) && PathReadable(c, c.KeyIn(args.poolName, args.volumeName))
  }

  /**
   * The Ignition step of `CreateDomain`: without a key the machine is
   * refused; otherwise the key's volume is found in the pool and its path
   * goes on the firmware-configuration command line.
   */
  method Ignite(d: ClientDomain.Domain, c: Connect, args: CreateDomainArgs) returns (err: Outcome)
    modifies d, c
    ensures c.store == old(c.store)
    ensures args.ignKey == "" ==> err == Some(NoIgnKeyError) && d.def == old(d.def)
    ensures args.ignKey != "" && !LegacyVolume.Exists(c, args.poolName, args.ignKey) ==>
              err == Some(Wrap("error getting ignition volume",
                               LegacyVolume.VolumeFromPool(c, args.ignKey, args.poolName).error))
    ensures args.ignKey != "" && LegacyVolume.Exists(c, args.poolName, args.ignKey) &&
            Call.VolGetPath(c.KeyIn(args.poolName, args.ignKey)) in c.fails ==>
              err == Some(Wrap("error getting ignition volume path",
                               ErrorOf(c.fails[Call.VolGetPath(c.KeyIn(args.poolName, args.ignKey))])))
    ensures err.None? <==> args.ignKey != "" && IgnitionReadable(c, args)
    ensures err.None? ==>
              d.def == old(d.def).(qemuArgs := Some(ClientDomain.FwCfgArgs(c.KeyIn(args.poolName, args.ignKey))))
  {
    if args.ignKey == "" {
      return Some(NoIgnKeyError);
    }
    var volume := LegacyVolume.GetVolumeFromPool(c, args.ignKey, args.poolName);
    if volume.Err? {
      return Some(Wrap("error getting ignition volume", volume.error));
    }
    var path := c.VolGetPath(volume.value);
    if path.Err? {
      return Some(Wrap("error getting ignition volume path", path.error));
    }
    err := UtilsDomain.SetCoreOSIgnition(d, path.value);
  }

  /** The disk step of `CreateDomain`: the machine's volume is found in the pool and attached. */
  method AttachDisk(d: ClientDomain.Domain, c: Connect, args: CreateDomainArgs) returns (err: Outcome)
    modifies d, c
    ensures c.store == old(c.store)
    ensures !LegacyVolume.Exists(c, args.poolName, args.volumeName) ==>
              err == Some(Wrap("can't retrieve volume " + args.volumeName + " for pool " + args.poolName,
                               LegacyVolume.VolumeFromPool(c, args.volumeName, args.poolName).error))
    ensures LegacyVolume.Exists(c, args.poolName, args.volumeName) &&
            Call.VolGetPath(c.KeyIn(args.poolName, args.volumeName)) in c.fails ==>
              err == Some(Wrap("Failed to setDisks", Wrap("Error retrieving volume file",
                               ErrorOf(c.fails[Call.VolGetPath(c.KeyIn(args.poolName, args.volumeName))]))))
    ensures err.None? <==> DiskReadable(c, args)
    ensures err.None? ==>
              d.def == old(d.def).(devices := old(d.def).devices.(disks := old(d.def).devices.disks +
                                     [UtilsDomain.RootDisk(c.KeyIn(args.poolName, args.volumeName))]))
  {
    var volume := LegacyVolume.GetVolumeFromPool(c, args.volumeName, args.poolName);
    if volume.Err? {
      return Some(Wrap("can't retrieve volume " + args.volumeName + " for pool " + args.poolName, volume.error));
    }
    var e := SetDisks(d, c, volume.value);
    if e.Some? {
      return Some(Wrap("Failed to setDisks", e.value));
    }
    err := None;
  }

  /** Whether every step of the definition succeeds for `args`. */
  predicate Preparable(c: Connect, args: CreateDomainArgs)
    reads c`store
  {
    args.memory != 0 && args.vcpu != 0 && args.ignKey != "" && IgnitionReadable(c, args) && DiskReadable(c, args)
  }

  /**
   * What a definition built for `args` from the host skeleton `base` holds:
   * the name, memory in MiB and vCPU count of the arguments, the path of the
   * Ignition volume on the firmware-configuration command line, and disk
   * vda backed by the machine's volume.  Everything else is the skeleton's.
   */
  ghost predicate Booted(c: Connect, args: CreateDomainArgs, base: DomainDef, def: DomainDef) {
    args.poolName in c.pools &&
    def == base.(name := args.name, memory := Memory(ToUint64(args.memory), "MiB"), vcpu := VCPU("", args.vcpu),
                 qemuArgs := Some(ClientDomain.FwCfgArgs(c.KeyIn(args.poolName, args.ignKey))),
                 devices := base.devices.(disks := [UtilsDomain.RootDisk(c.KeyIn(args.poolName, args.volumeName))]))
  }

  /**
   * The steps of `CreateDomain` between the host skeleton and the network
   * interface: `domainDefInit`, the Ignition volume and `setDisks`,
   * stopping at the first failure.
   */
  method Prepare(d: ClientDomain.Domain, c: Connect, args: CreateDomainArgs) returns (err: Outcome)
    requires args.name != "" && d.def.devices.disks == []
    modifies d, c
    ensures c.store == old(c.store)
    ensures args.memory == 0 ==>
              err == Some(Wrap(UtilsDomain.InitContext, Fail("machine does not have an DomainMemory set")))
    ensures args.memory != 0 && args.vcpu == 0 ==>
              err == Some(Wrap(UtilsDomain.InitContext, Fail("machine does not have an DomainVcpu set")))
    ensures args.memory != 0 && args.vcpu != 0 && args.ignKey == "" ==> err == Some(NoIgnKeyError)
    ensures err.None? <==> Preparable(c, args)
    ensures err.None? ==> Booted(c, args, old(d.def), d.def)
  {
    var e := UtilsDomain.DomainDefInit(d, args.name, args.memory, args.vcpu);
    if e.Some? {
      return Some(Wrap(UtilsDomain.InitContext, e.value));
    }
    err := Ignite(d, c, args);
    if err.Some? {
      return;
    }
    err := AttachDisk(d, c, args);
  }

  /** A booted definition with one network interface, made for the named network. */
  ghost predicate Dressed(c: Connect, args: CreateDomainArgs, base: DomainDef, def: DomainDef) {
    |def.devices.interfaces| == 1 && ClientDomain.NewInterface(def.devices.interfaces[0], args.networkInterfaceName) &&
    Booted(c, args, base, def.(devices := def.devices.(interfaces := base.devices.interfaces)))
  }

  /**
   * The static DHCP host of the interface with MAC `mac`: the address at
   * host number `offset` of the range, under the host name given or else
   * the domain's name.
   */
  ghost predicate HostRegistered(c: Connect, args: CreateDomainArgs, mac: string)
    reads c`store
  {
    args.networkCIDR.Some? && GenerateIP(args.networkCIDR.value, args.offset).Ok? &&
    args.networkInterfaceName in c.store.networks &&
    DHCPHost(IPString(GenerateIP(args.networkCIDR.value, args.offset).value), mac,
             ClientDomain.Hostname(args.name, args.hostName)) in c.store.networks[args.networkInterfaceName].hosts
  }

  /**
   * `Prepare`, then `setNetworkInterfaces` with the host name defaulting to
   * the domain name and the fixed host number `offset`; `macBytes` and
   * `macErr` are what `rand.Read` produced.
   */
  method Dress(d: ClientDomain.Domain, c: Connect, args: CreateDomainArgs, macBytes: seq<bv8>, macErr: Outcome)
    returns (err: Outcome)
    requires |macBytes| == 6
    requires args.name != "" && d.def.devices.disks == [] && d.def.devices.interfaces == []
    modifies d, c
    ensures c.store.domains == old(c.store.domains) && c.store.volumes == old(c.store.volumes)
    ensures c.store.networks - {args.networkInterfaceName} == old(c.store.networks) - {args.networkInterfaceName}
    ensures !old(Preparable(c, args)) ==> err.Some? && c.store == old(c.store)
    ensures args.memory != 0 && args.vcpu != 0 && args.ignKey == "" ==> err == Some(NoIgnKeyError)
    ensures old(Preparable(c, args)) && macErr.Some? ==>
              err == Some(Wrap("Error generating mac address", macErr.value)) && c.store == old(c.store)
    ensures old(Preparable(c, args)) && macErr.None? && args.networkInterfaceName != "" &&
            old(c.Effect(Call.NetworkLookupByName(args.networkInterfaceName),
                         args.networkInterfaceName in c.store.networks, NoNetwork)).Some? ==>
              err == Some(Fail("Can't retrieve network name " + args.networkInterfaceName))
    ensures old(Preparable(c, args)) && macErr.None? && args.networkInterfaceName == "" ==>
              err.None? && c.store == old(c.store)
    ensures err.None? ==> old(Preparable(c, args)) && Dressed(c, args, old(d.def), d.def)
    ensures err.None? && args.networkInterfaceName != "" && old(UtilsDomain.ServesDHCP(c, args.networkInterfaceName)) ==>
              HostRegistered(c, args, d.def.devices.interfaces[0].mac.value)
  {
    err := Prepare(d, c, args);
    if err.Some? {
      return;
    }
    ghost var booted := d.def;
    var hostname := ClientDomain.Hostname(args.name, args.hostName);
    assert ClientDomain.Hostname(d.def.name, hostname) == hostname;
    err := UtilsDomain.SetNetworkInterfaces(d, c, macBytes, macErr, hostname, args.networkInterfaceName,
                                            args.networkInterfaceAddress, args.networkCIDR, args.offset);
    if err.None? {
      assert d.def.(devices := d.def.devices.(interfaces := [])) == booted;
    }
  }

  /** `CreateDomain` from the host skeleton `base` on: `Dress`, then define, autostart and start. */
  method BuildAndLaunch(c: Connect, args: CreateDomainArgs, macBytes: seq<bv8>, macErr: Outcome, base: DomainDef)
    returns (err: Outcome)
    requires |macBytes| == 6
    requires args.name != "" && base.devices.disks == [] && base.devices.interfaces == []
    modifies c
    ensures !old(Preparable(c, args)) ==> err.Some? && c.store == old(c.store)
    ensures args.memory != 0 && args.vcpu != 0 && args.ignKey == "" ==> err == Some(NoIgnKeyError)
    ensures old(Preparable(c, args)) && macErr.Some? ==>
              err == Some(Wrap("Error generating mac address", macErr.value)) && c.store == old(c.store)
    ensures old(Preparable(c, args)) && macErr.None? && args.networkInterfaceName != "" &&
            old(c.Effect(Call.NetworkLookupByName(args.networkInterfaceName),
                         args.networkInterfaceName in c.store.networks, NoNetwork)).Some? ==>
              err == Some(Fail("Can't retrieve network name " + args.networkInterfaceName))
    ensures c.store.volumes == old(c.store.volumes)
    ensures c.store.networks - {args.networkInterfaceName} == old(c.store.networks) - {args.networkInterfaceName}
    ensures args.networkInterfaceName == "" ==> c.store.networks == old(c.store.networks)
    ensures c.store.domains - {args.name} == old(c.store.domains) - {args.name}
    ensures old(Preparable(c, args)) && macErr.None? && args.networkInterfaceName == "" ==>
              (err.None? <==> Call.GetURI !in c.fails && UtilsDomain.Starts(c, args.name) &&
                              Call.DomainGetUUID(args.name) !in c.fails)
    ensures err.None? ==>
              args.name in c.store.domains &&
              c.store.domains[args.name].state == Running && c.store.domains[args.name].autostart == args.autostart &&
              Dressed(c, args, base, c.store.domains[args.name].def)
    ensures err.None? && args.networkInterfaceName != "" && old(UtilsDomain.ServesDHCP(c, args.networkInterfaceName)) ==>
              HostRegistered(c, args, c.store.domains[args.name].def.devices.interfaces[0].mac.value)
  {
    var d := new ClientDomain.Domain(base);
    err := Dress(d, c, args, macBytes, macErr);
    if err.Some? {
      return;
    }
    assert d.def.name == args.name;
    ghost var registered := c.store;
    err := UtilsDomain.Launch(c, d.def, args.autostart);
    assert c.store.networks == registered.networks;
  }

  /**
   * `CreateDomain(name, ignKey, poolName, volumeName, ...)`: builds the
   * definition for the host, fills it from the arguments, points the
   * firmware configuration at the Ignition volume, attaches the machine's
   * volume and one network interface, and defines, configures and starts
   * the domain.  `macBytes` and `macErr` are what `rand.Read` produced.
   */
  method CreateDomain(c: Connect, args: CreateDomainArgs, domainTypeEnv: string, macBytes: seq<bv8>, macErr: Outcome)
    returns (err: Outcome)
    requires |macBytes| == 6
    modifies c
    ensures args.name == "" ==>
              err == Some(ClientClient.EmptyNameError) && c.store == old(c.store) && c.trace == old(c.trace)
    ensures args.name != "" && Call.GetCapabilities in c.fails ==>
              err == Some(Wrap("Failed to newDomainDefForConnection", ErrorOf(c.fails[Call.GetCapabilities]))) &&
              c.store == old(c.store)
    ensures args.name != "" && Call.GetCapabilities !in c.fails && UtilsDomain.HostDef(c.caps, domainTypeEnv).Err? ==>
              err == Some(Wrap("Failed to newDomainDefForConnection", UtilsDomain.HostDef(c.caps, domainTypeEnv).error)) &&
              c.store == old(c.store)
    ensures args.name != "" && Call.GetCapabilities !in c.fails && UtilsDomain.HostDef(c.caps, domainTypeEnv).Ok? &&
            args.memory != 0 && args.vcpu != 0 && args.ignKey == "" ==>
              err == Some(NoIgnKeyError) && c.store == old(c.store)
    ensures c.store.volumes == old(c.store.volumes)
    ensures c.store.networks - {args.networkInterfaceName} == old(c.store.networks) - {args.networkInterfaceName}
    ensures args.networkInterfaceName == "" ==> c.store.networks == old(c.store.networks)
    ensures c.store.domains - {args.name} == old(c.store.domains) - {args.name}
    ensures err.None? ==>
              UtilsDomain.HostDef(c.caps, domainTypeEnv).Ok? && old(Preparable(c, args)) && args.name in c.store.domains &&
              c.store.domains[args.name].state == Running && c.store.domains[args.name].autostart == args.autostart &&
              Dressed(c, args, UtilsDomain.HostDef(c.caps, domainTypeEnv).value, c.store.domains[args.name].def)
    ensures err.None? && args.networkInterfaceName != "" && old(UtilsDomain.ServesDHCP(c, args.networkInterfaceName)) ==>
              HostRegistered(c, args, c.store.domains[args.name].def.devices.interfaces[0].mac.value)
  {
    if args.name == "" {
      return Some(ClientClient.EmptyNameError);
    }
    var base := UtilsDomain.NewDomainDefForConnection(c, domainTypeEnv);
    if base.Err? {
      return Some(Wrap("Failed to newDomainDefForConnection", base.error));
    }
    err := BuildAndLaunch(c, args, macBytes, macErr, base.value);
  }

  /** `DomainExists(name, client)`: as the later generation's, with the plain nil-connection error. */
  method DomainExists(c: Connect?, name: string) returns (exists_: bool, err: Outcome)
    modifies c
    ensures c == null ==> !exists_ && err == Some(NilConnectionError)
    ensures c != null ==> c.store == old(c.store) && c.trace == old(c.trace) + [Call.DomainLookupByName(name)]
    ensures c != null ==> (exists_ <==> UtilsDomain.DomainAnswer(c, name).Ok?)
    ensures c != null ==>
              (err.None? <==> UtilsDomain.DomainAnswer(c, name).Ok? ||
                              ClientClient.IsNotFound(UtilsDomain.DomainAnswer(c, name).error))
    ensures c != null && err.Some? ==> err == Some(UtilsDomain.DomainAnswer(c, name).error)
  {
    if c == null {
      return false, Some(NilConnectionError);
    }
    exists_, err := UtilsDomain.DomainExists(c, name);
  }

  /**
   * `DeleteDomain(name, client)`: as the later generation's (look up,
   * destroy when active, undefine), with the plain nil-connection error.
   */
  method DeleteDomain(c: Connect?, name: string) returns (err: Outcome, ghost calls: seq<Call>)
    modifies c
    ensures c == null ==> err == Some(NilConnectionError) && calls == []
    ensures c != null ==> c.trace == old(c.trace) + calls
    ensures c != null && old(UtilsDomain.DomainAnswer(c, name)).Err? ==>
              c.store == old(c.store) && calls == [Call.DomainLookupByName(name)] &&
              err == Some(Wrap("Error retrieving libvirt domain", old(UtilsDomain.DomainAnswer(c, name)).error))
    ensures Call.DomainDestroy(name) in calls <==>
              c != null && old(UtilsDomain.DomainAnswer(c, name)).Ok? && Call.DomainGetState(name) !in c.fails &&
              ClientClient.Active(old(c.store.domains[name].state))
    ensures Call.DomainUndefineFlags(name) in calls <==>
              c != null && old(UtilsDomain.DomainAnswer(c, name)).Ok? && Call.DomainGetState(name) !in c.fails &&
              (ClientClient.Active(old(c.store.domains[name].state)) ==> Call.DomainDestroy(name) !in c.fails)
    ensures c != null && err.None? ==>
              name in old(c.store.domains) && c.store == old(c.store).(domains := old(c.store.domains) - {name})
    ensures c != null ==>
              c.store.volumes == old(c.store.volumes) && c.store.networks == old(c.store.networks) &&
              c.store.domains - {name} == old(c.store.domains) - {name}
  {
    if c == null {
      return Some(NilConnectionError), [];
    }
    err, calls := UtilsDomain.DeleteDomain(c, name);
  }
}
