/**
 * The `Client` of the machine actuator's helper package
 * (pkg/cloud/libvirt/actuators/machine/utils/client.go): the middle
 * generation's implementation of the client interface, a bare connection
 * `c: Connect?` (null being the nil connection) driven by the helpers of
 * `UtilsDomain` and `UtilsVolume`.
 */
module UtilsClient {
  import opened Wrappers
  import opened Cidr
  import opened LibvirtXml
  import opened Hypervisor
  import ClientDomain
  import ClientVolume
  import ClientClient
  import UtilsVolume
  import UtilsDomain

  // ----- creating a domain -----

  /**
   * The fields of `CreateDomainInput` that `CreateDomain` reads.
   * `networkCIDR` is what `net.ParseCIDR` makes of `networkInterfaceAddress`;
   * `addressRange` is the host number of the interface's address.
   */
  datatype CreateDomainInput = CreateDomainInput(
    domainName: string, ignKey: string, ignition: Option<ClientClient.IgnitionConfig>,
    cloudInit: Option<ClientClient.CloudInitConfig>, volumeName: string,
    networkInterfaceName: string, networkInterfaceAddress: string, networkCIDR: Option<IPNet>,
    hostName: string, addressRange: int64, autostart: bool, domainMemory: int64, domainVcpu: int64)

  /**
   * What the world outside libvirt supplies while a domain is created: the
   * TERRAFORM_LIBVIRT_TEST_DOMAIN_TYPE variable; the outcome of `SetIgnition`
   * (the QEMU command line it sets, or its error) and of `setCloudInit` (the
   * disks it adds, or its error), whose bodies are not part of this model;
   * and the random MAC bytes (or the error reading them).
   */
  datatype World = World(domainTypeEnv: string, ignition: Result<seq<string>>, cloudInit: Result<seq<Disk>>,
                         macBytes: seq<bv8>, macErr: Outcome)

  /** The first of Ignition, the Ignition volume key and cloud-init that the input sets. */
  function StrategyOf(input: CreateDomainInput): (s: ClientClient.Strategy)
    ensures s == ClientClient.ByIgnition <==> input.ignition.Some?
    ensures s == ClientClient.ByIgnKey <==> input.ignition.None? && input.ignKey != ""
    ensures s == ClientClient.ByCloudInit <==> input.ignition.None? && input.ignKey == "" && input.cloudInit.Some?
  {
    if input.ignition.Some? then ClientClient.ByIgnition
    else if input.ignKey != "" then ClientClient.ByIgnKey
    else if input.cloudInit.Some? then ClientClient.ByCloudInit
    else ClientClient.NoStrategy
  }

  /**
   * The bootstrap step of `CreateDomain`: the first strategy the input sets
   * decides; an Ignition or cloud-init error is returned as it is.
   */
  method Bootstrap(d: ClientDomain.Domain, input: CreateDomainInput, w: World) returns (err: Outcome)
    modifies d
    ensures StrategyOf(input) == ClientClient.NoStrategy ==>
              err == Some(ClientClient.NoStrategyError) && d.def == old(d.def)
    ensures StrategyOf(input) == ClientClient.ByIgnition && w.ignition.Err? ==>
              err == Some(w.ignition.error) && d.def == old(d.def)
    ensures StrategyOf(input) == ClientClient.ByIgnition && w.ignition.Ok? ==>
              err == None && d.def == old(d.def).(qemuArgs := Some(w.ignition.value))
    ensures StrategyOf(input) == ClientClient.ByIgnKey ==>
              err == None && d.def == old(d.def).(qemuArgs := Some(ClientDomain.FwCfgArgs(input.ignKey)))
    ensures StrategyOf(input) == ClientClient.ByCloudInit && w.cloudInit.Err? ==>
              err == Some(w.cloudInit.error) && d.def == old(d.def)
    ensures StrategyOf(input) == ClientClient.ByCloudInit && w.cloudInit.Ok? ==>
              err == None &&
              d.def == old(d.def).(devices := old(d.def).devices.(disks := old(d.def).devices.disks + w.cloudInit.value))
  {
    match StrategyOf(input)
    case ByIgnition =>
      if w.ignition.Err? {
        return Some(w.ignition.error);
      }
      d.def := d.def.(qemuArgs := Some(w.ignition.value));
      err := None;
    case ByIgnKey =>
      err := UtilsDomain.SetCoreOSIgnition(d, input.ignKey);
    case ByCloudInit =>
      if w.cloudInit.Err? {
        return Some(w.cloudInit.error);
      }
      d.def := d.def.(devices := d.def.devices.(disks := d.def.devices.disks + w.cloudInit.value));
      err := None;
    case NoStrategy =>
      err := Some(ClientClient.NoStrategyError);
  }

  /**
   * What a definition built for `input` from the host skeleton `base` holds
   * before its network interface is added: the name, memory in MiB and vCPU
   * count of the input; the Ignition command line, the firmware
   * configuration naming the Ignition key, or the cloud-init disks, by the
   * first strategy set; and, last, disk vda backed by the machine's volume.
   * Everything else is the skeleton's.
   */
  ghost predicate Booted(input: CreateDomainInput, w: World, base: DomainDef, def: DomainDef) {
    var root := UtilsDomain.RootDisk(UtilsDomain.VolumeKey(input.volumeName));
    def == base.(name := input.domainName, memory := Memory(ToUint64(input.domainMemory), "MiB"),
                 vcpu := VCPU("", input.domainVcpu), qemuArgs := def.qemuArgs,
                 devices := base.devices.(disks := def.devices.disks)) &&
    match StrategyOf(input)
    case ByIgnition => w.ignition.Ok? && def.qemuArgs == Some(w.ignition.value) && def.devices.disks == [root]
    case ByIgnKey => def.qemuArgs == Some(ClientDomain.FwCfgArgs(input.ignKey)) && def.devices.disks == [root]
    case ByCloudInit => w.cloudInit.Ok? && def.qemuArgs == None && def.devices.disks == w.cloudInit.value + [root]
    case NoStrategy => false
  }

  /** A booted definition with one network interface, made for the named network. */
  ghost predicate Dressed(input: CreateDomainInput, w: World, base: DomainDef, def: DomainDef) {
    |def.devices.interfaces| == 1 && ClientDomain.NewInterface(def.devices.interfaces[0], input.networkInterfaceName) &&
    Booted(input, w, base, def.(devices := def.devices.(interfaces := base.devices.interfaces)))
  }

  /**
   * The static DHCP host of the interface with MAC `mac`: the address at
   * host number `addressRange` of the range, under the host name given or
   * else the domain's name.
   */
  ghost predicate HostRegistered(c: Connect, input: CreateDomainInput, mac: string)
    reads c`store
  {
    input.networkCIDR.Some? && GenerateIP(input.networkCIDR.value, input.addressRange).Ok? &&
    input.networkInterfaceName in c.store.networks &&
    DHCPHost(IPString(GenerateIP(input.networkCIDR.value, input.addressRange).value), mac,
             ClientDomain.Hostname(input.domainName, input.hostName))
      in c.store.networks[input.networkInterfaceName].hosts
  }

  /**
   * The steps of `CreateDomain` between the host skeleton and the network
   * interface: `domainDefInit`, the bootstrap configuration and `setDisks`
   * for the key `baseVolumePath + VolumeName`, stopping at the first failure.
   */
  method Prepare(d: ClientDomain.Domain, c: Connect, input: CreateDomainInput, w: World) returns (err: Outcome)
    requires input.domainName != "" && d.def.devices.disks == [] && d.def.qemuArgs == None
    modifies d, c
    ensures c.store == old(c.store)
    ensures input.domainMemory == 0 ==>
              err == Some(Wrap(UtilsDomain.InitContext, Fail("machine does not have an DomainMemory set")))
    ensures input.domainMemory != 0 && input.domainVcpu == 0 ==>
              err == Some(Wrap(UtilsDomain.InitContext, Fail("machine does not have an DomainVcpu set")))
    ensures input.domainMemory != 0 && input.domainVcpu != 0 && StrategyOf(input) == ClientClient.NoStrategy ==>
              err == Some(ClientClient.NoStrategyError)
    ensures input.domainMemory != 0 && input.domainVcpu != 0 && StrategyOf(input) == ClientClient.ByIgnition &&
            w.ignition.Err? ==>
              err == Some(w.ignition.error)
    ensures input.domainMemory != 0 && input.domainVcpu != 0 && StrategyOf(input) == ClientClient.ByCloudInit &&
            w.cloudInit.Err? ==>
              err == Some(w.cloudInit.error)
    ensures err.None? ==>
              UtilsDomain.KeyReadable(c, UtilsDomain.VolumeKey(input.volumeName)) && Booted(input, w, old(d.def), d.def)
  {
    var e := UtilsDomain.DomainDefInit(d, input.domainName, input.domainMemory, input.domainVcpu);
    if e.Some? {
      return Some(Wrap(UtilsDomain.InitContext, e.value));
    }
    err := Bootstrap(d, input, w);
    if err.Some? {
      return;
    }
    ghost var booted := d.def;
    e := UtilsDomain.SetDisks(d, c, UtilsDomain.VolumeKey(input.volumeName));
    if e.Some? {
      return Some(Wrap("Failed to setDisks", e.value));
    }
    assert d.def.devices.disks == booted.devices.disks + [UtilsDomain.RootDisk(UtilsDomain.VolumeKey(input.volumeName))];
    err := None;
  }

  /**
   * `Prepare`, then `setNetworkInterfaces` with the host name defaulting to
   * the domain name and the host number `AddressRange`.
   */
  method Dress(d: ClientDomain.Domain, c: Connect, input: CreateDomainInput, w: World) returns (err: Outcome)
    requires |w.macBytes| == 6
    requires input.domainName != "" && d.def.devices.disks == [] && d.def.devices.interfaces == [] &&
             d.def.qemuArgs == None
    modifies d, c
    ensures c.store.domains == old(c.store.domains) && c.store.volumes == old(c.store.volumes)
    ensures input.domainMemory != 0 && input.domainVcpu != 0 && StrategyOf(input) == ClientClient.NoStrategy ==>
              err == Some(ClientClient.NoStrategyError) && c.store == old(c.store)
    ensures err.None? ==> Dressed(input, w, old(d.def), d.def)
    ensures err.None? && input.networkInterfaceName != "" &&
            old(UtilsDomain.ServesDHCP(c, input.networkInterfaceName)) ==>
              HostRegistered(c, input, d.def.devices.interfaces[0].mac.value)
  {
    err := Prepare(d, c, input, w);
    if err.Some? {
      return;
    }
    ghost var booted := d.def;
    var hostName := ClientDomain.Hostname(input.domainName, input.hostName);
    assert ClientDomain.Hostname(d.def.name, hostName) == hostName;
    err := UtilsDomain.SetNetworkInterfaces(d, c, w.macBytes, w.macErr, hostName, input.networkInterfaceName,
                                            input.networkInterfaceAddress, input.networkCIDR, input.addressRange);
    if err.None? {
      assert d.def.(devices := d.def.devices.(interfaces := [])) == booted;
    }
  }

  /**
   * `CreateDomain` from the host skeleton `base` on: the definition is
   * filled in and dressed as `Dress` says, then defined and started as
   * `UtilsDomain.Launch` says.
   */
  method BuildAndLaunch(c: Connect, input: CreateDomainInput, w: World, base: DomainDef) returns (err: Outcome)
    requires |w.macBytes| == 6
    requires input.domainName != "" && base.devices.disks == [] && base.devices.interfaces == [] &&
             base.qemuArgs == None
    modifies c
    ensures input.domainMemory != 0 && input.domainVcpu != 0 && StrategyOf(input) == ClientClient.NoStrategy ==>
              err == Some(ClientClient.NoStrategyError) && c.store == old(c.store)
    ensures c.store.volumes == old(c.store.volumes)
    ensures c.store.domains - {input.domainName} == old(c.store.domains) - {input.domainName}
    ensures err.None? ==>
              input.domainName in c.store.domains &&
              c.store.domains[input.domainName].state == Running &&
              c.store.domains[input.domainName].autostart == input.autostart &&
              Dressed(input, w, base, c.store.domains[input.domainName].def)
    ensures err.None? && input.networkInterfaceName != "" &&
            old(UtilsDomain.ServesDHCP(c, input.networkInterfaceName)) ==>
              HostRegistered(c, input, c.store.domains[input.domainName].def.devices.interfaces[0].mac.value)
  {
    var d := new ClientDomain.Domain(base);
    err := Dress(d, c, input, w);
    if err.Some? {
      return;
    }
    assert d.def.name == input.domainName;
    ghost var registered := c.store;
    err := UtilsDomain.Launch(c, d.def, input.autostart);
    assert c.store.networks == registered.networks;
  }

  /**
   * `Client.CreateDomain(input)`: builds the definition for the host, fills
   * it from the input, attaches the bootstrap configuration (Ignition, else
   * the Ignition key, else cloud-init), the machine's disk and one network
   * interface, and defines, configures and starts the domain.
   */
  method CreateDomain(c: Connect, input: CreateDomainInput, w: World) returns (err: Outcome)
    requires |w.macBytes| == 6
    modifies c
    ensures input.domainName == "" ==>
              err == Some(ClientClient.EmptyNameError) && c.store == old(c.store) && c.trace == old(c.trace)
    ensures input.domainName != "" && Call.GetCapabilities in c.fails ==>
              err == Some(Wrap("Failed to newDomainDefForConnection", ErrorOf(c.fails[Call.GetCapabilities]))) &&
              c.store == old(c.store)
    ensures input.domainName != "" && Call.GetCapabilities !in c.fails &&
            UtilsDomain.HostDef(c.caps, w.domainTypeEnv).Err? ==>
              err == Some(Wrap("Failed to newDomainDefForConnection", UtilsDomain.HostDef(c.caps, w.domainTypeEnv).error)) &&
              c.store == old(c.store)
    ensures input.domainName != "" && Call.GetCapabilities !in c.fails &&
            UtilsDomain.HostDef(c.caps, w.domainTypeEnv).Ok? && input.domainMemory != 0 && input.domainVcpu != 0 &&
            StrategyOf(input) == ClientClient.NoStrategy ==>
              err == Some(ClientClient.NoStrategyError) && c.store == old(c.store)
    ensures c.store.volumes == old(c.store.volumes)
    ensures c.store.domains - {input.domainName} == old(c.store.domains) - {input.domainName}
    ensures err.None? ==>
              UtilsDomain.HostDef(c.caps, w.domainTypeEnv).Ok? && input.domainName in c.store.domains &&
              c.store.domains[input.domainName].state == Running &&
              c.store.domains[input.domainName].autostart == input.autostart &&
              Dressed(input, w, UtilsDomain.HostDef(c.caps, w.domainTypeEnv).value,
                      c.store.domains[input.domainName].def)
    ensures err.None? && input.networkInterfaceName != "" &&
            old(UtilsDomain.ServesDHCP(c, input.networkInterfaceName)) ==>
              HostRegistered(c, input, c.store.domains[input.domainName].def.devices.interfaces[0].mac.value)
  {
    if input.domainName == "" {
      return Some(ClientClient.EmptyNameError);
    }
    var base := UtilsDomain.NewDomainDefForConnection(c, w.domainTypeEnv);
    if base.Err? {
      return Some(Wrap("Failed to newDomainDefForConnection", base.error));
    }
    err := BuildAndLaunch(c, input, w, base.value);
  }

  // ----- looking up and deleting domains -----

  /**
   * `Client.DeleteDomain(name)`: a failed existence check is returned as it
   * is, an absent domain is `ErrDomainNotFound`; otherwise the domain is
   * looked up again, destroyed when it is running or paused, and undefined,
   * as `UtilsDomain.StopAndUndefine` says.
   */
  method DeleteDomain(c: Connect?, name: string) returns (err: Outcome, ghost calls: seq<Call>)
    modifies c
    ensures c == null ==> err == Some(ConnIsNil) && calls == []
    ensures c != null ==> c.trace == old(c.trace) + calls
    ensures c != null && old(UtilsDomain.DomainAnswer(c, name)).Err? ==>
              c.store == old(c.store) && calls == [Call.DomainLookupByName(name)] &&
              err == Some(if ClientClient.IsNotFound(old(UtilsDomain.DomainAnswer(c, name)).error) then DomainNotFound
                          else old(UtilsDomain.DomainAnswer(c, name)).error)
    ensures c != null && old(UtilsDomain.DomainAnswer(c, name)).Ok? ==>
              |calls| >= 2 && calls[0] == Call.DomainLookupByName(name) && calls[1] == Call.DomainLookupByName(name)
    ensures c != null && old(UtilsDomain.DomainAnswer(c, name)).Ok? && Call.DomainGetState(name) in c.fails ==>
              c.store == old(c.store) &&
              err == Some(Wrap("Couldn't get info about domain", ErrorOf(c.fails[Call.DomainGetState(name)])))
    ensures Call.DomainDestroy(name) in calls <==>
              c != null && old(UtilsDomain.DomainAnswer(c, name)).Ok? && Call.DomainGetState(name) !in c.fails &&
              ClientClient.Active(old(c.store.domains[name].state))
    ensures Call.DomainUndefineFlags(name) in calls <==>
              c != null && old(UtilsDomain.DomainAnswer(c, name)).Ok? && Call.DomainGetState(name) !in c.fails &&
              (ClientClient.Active(old(c.store.domains[name].state)) ==> Call.DomainDestroy(name) !in c.fails)
    ensures c != null && err.None? ==>
              name in old(c.store.domains) && c.store == old(c.store).(domains := old(c.store.domains) - {name})
    ensures c != null ==>
              c.store.volumes == old(c.store.volumes) && c.store.networks == old(c.store.networks) &&
              c.store.domains - {name} == old(c.store.domains) - {name}
  {
    var exists_, e := UtilsDomain.DomainExists(c, name);
    if e.Some? {
      return e, if c == null then [] else [Call.DomainLookupByName(name)];
    }
    if !exists_ {
      return Some(DomainNotFound), [Call.DomainLookupByName(name)];
    }
    if c == null {
      // The existence check has already reported the nil connection.
      assert false;
      return Some(ConnIsNil), [];
    }
    var domain := c.DomainLookupByName(name);
    calls := [Call.DomainLookupByName(name), Call.DomainLookupByName(name)];
    if domain.Err? {
      // The same lookup has just succeeded, and a call's answer never changes.
      assert false;
      return Some(Fail("Error retrieving libvirt domain")), calls;
    }
    ghost var rest;
    err, rest := UtilsDomain.StopAndUndefine(c, name);
    calls := calls + rest;
  }

  // ----- volumes -----

  /** The fields of `CreateVolumeInput` that `CreateVolume` reads. */
  datatype CreateVolumeInput = CreateVolumeInput(volumeName: string, poolName: string, baseVolumeID: string,
                                                 source: string, volumeFormat: string)

  const SourceAndBaseIDError := Fail("'base_volume_id' can't be specified when also 'source' is given")

  function NoPoolError(pool: string): Error {
    Fail("can't find storage pool '" + pool + "'")
  }

  /**
   * The definition `CreateVolume` creates: the unnamed default volume with
   * the input's name and format; a source image of `imageSize` bytes makes
   * its capacity that many "B", a base volume makes it the fixed
   * 17706254336 bytes backed by `backing`, and with neither it stays one
   * byte.
   */
  function DefFor(input: CreateVolumeInput, imageSize: uint64, backing: BackingStore): (v: VolumeDef)
    ensures v.name == input.volumeName && v.format == input.volumeFormat && v.mode == "644"
    ensures input.source != "" ==> v.capacity == Capacity("B", imageSize) && v.backing == None
    ensures input.source == "" && input.baseVolumeID != "" ==>
              v.capacity == Capacity("bytes", UtilsVolume.Size) && v.backing == Some(backing)
    ensures input.source == "" && input.baseVolumeID == "" ==> v == UtilsVolume.NewDefVolume().(name := v.name, format := v.format)
  {
    var plain := UtilsVolume.NewDefVolume().(name := input.volumeName, format := input.volumeFormat);
    if input.source != "" then plain.(capacity := Capacity("B", imageSize))
    else if input.baseVolumeID != "" then plain.(capacity := plain.capacity.(value := UtilsVolume.Size), backing := Some(backing))
    else plain
  }

  /** Whether the pool of the input can be looked up. */
  predicate PoolFound(c: Connect, pool: string) {
    c.Effect(Call.PoolLookupByName(pool), pool in c.pools, NoStoragePool).None?
  }

  /** Whether looking the name up in the pool succeeds, which `CreateVolume` takes as the name being taken. */
  predicate Taken(c: Connect, pool: string, name: string)
    reads c`store
  {
    c.Answer(Call.VolLookupByName(pool, name), c.VolumeNamed(pool, name), NoStorageVol).Ok?
  }

  /** A base volume that can be looked up by its key, with the backing store made from it. */
  predicate BaseReadable(c: Connect, key: string)
    reads c`store
  {
    key in c.store.volumes && Call.VolLookupByKey(key) !in c.fails && Call.VolGetName(key) !in c.fails &&
    Call.VolGetXMLDesc(key) !in c.fails && Call.VolGetPath(key) !in c.fails
  }

  /** The backing store a volume layered on the volume with key `key` gets. */
  function BackingOf(c: Connect, key: string): BackingStore
    reads c`store
  {
    BackingStore(key, if key in c.store.volumes then c.store.volumes[key].def.format else "")
  }

  /**
   * The definition steps of `CreateVolume`: a source image (read as `img`)
   * sets the capacity; a base volume, looked up by its key, sets the fixed
   * size and the backing store.  Nothing in the store changes.
   */
  method VolumeDefFor(c: Connect, input: CreateVolumeInput, img: Result<ClientVolume.Image>)
    returns (r: Result<(VolumeDef, ClientVolume.Image)>)
    modifies c
    ensures c.store == old(c.store) && old(c.trace) <= c.trace
    ensures input.source != "" && input.baseVolumeID != "" ==> r == Err(SourceAndBaseIDError)
    ensures input.source != "" && input.baseVolumeID == "" && img.Err? ==> r == Err(img.error)
    ensures input.source != "" && input.baseVolumeID == "" && img.Ok? ==>
              r == Ok((DefFor(input, ToUint64(|img.value.data|), BackingOf(c, "")), img.value))
    ensures input.source == "" && input.baseVolumeID != "" &&
            (input.baseVolumeID !in c.store.volumes || Call.VolLookupByKey(input.baseVolumeID) in c.fails) ==>
              r == Err(Fail("Can't retrieve volume " + input.baseVolumeID))
    ensures input.source == "" && input.baseVolumeID != "" ==>
              (r.Ok? <==> BaseReadable(c, input.baseVolumeID))
    ensures input.source == "" && input.baseVolumeID != "" && r.Err? && input.baseVolumeID in c.store.volumes &&
            Call.VolLookupByKey(input.baseVolumeID) !in c.fails ==>
              r == Err(Fail("Could not retrieve backing store " + input.baseVolumeID))
    ensures input.source == "" && input.baseVolumeID == "" ==> r.Ok?
    ensures input.source == "" && r.Ok? ==>
              r.value.0 == DefFor(input, 0, BackingOf(c, input.baseVolumeID)) && r.value.1.data == []
  {
    var def := UtilsVolume.NewDefVolume().(name := input.volumeName, format := input.volumeFormat);
    var image := ClientVolume.Image("", []);
    if input.source != "" {
      if input.baseVolumeID != "" {
        return Err(SourceAndBaseIDError);
      }
      if img.Err? {
        return Err(img.error);
      }
      image := img.value;
      def := def.(capacity := Capacity("B", ToUint64(|image.data|)));
    } else if input.baseVolumeID != "" {
      def := def.(capacity := def.capacity.(value := UtilsVolume.Size));
      var base := c.VolLookupByKey(input.baseVolumeID);
      if base.Err? {
        return Err(Fail("Can't retrieve volume " + input.baseVolumeID));
      }
      var backing := ClientVolume.NewDefBackingStoreFromLibvirt(c, base.value);
      if backing.Err? {
        return Err(Fail("Could not retrieve backing store " + input.baseVolumeID));
      }
      def := def.(backing := Some(backing.value));
    }
    return Ok((def, image));
  }

  /**
   * The last steps of `CreateVolume`: the volume is always created in the
   * pool, its key read back, and the source image (if any) uploaded into it
   * through the copier.  A volume once created stays when a later step fails.
   */
  method CreateAndImport(c: Connect, pool: string, def: VolumeDef, source: string, image: ClientVolume.Image)
    returns (err: Outcome)
    modifies c
    ensures old(c.trace) <= c.trace
    ensures c.store.domains == old(c.store.domains) && c.store.networks == old(c.store.networks)
    ensures !(pool in c.pools && c.KeyIn(pool, def.name) !in old(c.store.volumes)) || Call.VolCreateXML(pool, def.name) in c.fails ==>
              c.store == old(c.store) &&
              err == Some(Wrap("Error creating libvirt volume",
                               c.Answer<string>(Call.VolCreateXML(pool, def.name), None, OperationInvalid).error))
    ensures pool in c.pools && c.KeyIn(pool, def.name) !in old(c.store.volumes) && Call.VolCreateXML(pool, def.name) !in c.fails ==>
              var key := c.KeyIn(pool, def.name);
              c.store.volumes.Keys == old(c.store.volumes).Keys + {key} &&
              (err.None? ==>
                 c.store.volumes == old(c.store.volumes)[key := Volume(pool, def, 0,
                                      if source != "" then ClientVolume.Uploaded(c, key, def.capacity.value, image.data)
                                      else [])]) &&
              (Call.VolGetKey(key) in c.fails ==>
                 err == Some(Wrap("Error retrieving volume key", ErrorOf(c.fails[Call.VolGetKey(key)])))) &&
              (source == "" ==> (err.None? <==> Call.VolGetKey(key) !in c.fails))
    ensures err.None? ==> pool in c.pools && c.KeyIn(pool, def.name) !in old(c.store.volumes)
  {
    var created := c.VolCreateXML(pool, def);
    if created.Err? {
      return Some(Wrap("Error creating libvirt volume", created.error));
    }
    var key := c.VolGetKey(created.value);
    if key.Err? {
      return Some(Wrap("Error retrieving volume key", key.error));
    }
    if source != "" {
      var e := ClientVolume.Copy(c, created.value, def.capacity.value, image.data);
      if e.Some? {
        return Some(Wrap("Error while uploading source " + image.location, e.value));
      }
    }
    err := None;
  }

  /** The size a source image gives the new volume. */
  function ImageSize(img: Result<ClientVolume.Image>): uint64 {
    if img.Ok? then ToUint64(|img.value.data|) else 0
  }

  /**
   * `Client.CreateVolume(input)`.  The pool is looked up and refreshed (the
   * refresh's outcome is ignored) before the name is checked; a name the
   * pool resolves is already taken.  A source image gives the size in "B";
   * a base volume gives the fixed size and becomes the backing store; a
   * volume is then created in every case, and the source image uploaded
   * into it.  `img` is what `newImage` and `Size` make of the source.
   */
  method CreateVolume(c: Connect, input: CreateVolumeInput, img: Result<ClientVolume.Image>) returns (err: Outcome)
    modifies c
    ensures c.store.domains == old(c.store.domains) && c.store.networks == old(c.store.networks)
    ensures !PoolFound(c, input.poolName) ==>
              err == Some(NoPoolError(input.poolName)) && c.store == old(c.store) &&
              c.trace == old(c.trace) + [Call.PoolLookupByName(input.poolName)]
    ensures PoolFound(c, input.poolName) ==>
              old(c.trace) + [Call.PoolLookupByName(input.poolName)] + [Call.PoolRefresh(input.poolName)] +
              [Call.VolLookupByName(input.poolName, input.volumeName)] <= c.trace
    ensures PoolFound(c, input.poolName) && old(Taken(c, input.poolName, input.volumeName)) ==>
              err == Some(ClientClient.AlreadyExistsError(input.volumeName)) && c.store == old(c.store)
    ensures PoolFound(c, input.poolName) && !old(Taken(c, input.poolName, input.volumeName)) &&
            input.source != "" && input.baseVolumeID != "" ==>
              err == Some(SourceAndBaseIDError) && c.store == old(c.store)
    ensures PoolFound(c, input.poolName) && !old(Taken(c, input.poolName, input.volumeName)) &&
            input.source != "" && input.baseVolumeID == "" && img.Err? ==>
              err == Some(img.error) && c.store == old(c.store)
    ensures PoolFound(c, input.poolName) && !old(Taken(c, input.poolName, input.volumeName)) &&
            input.source == "" && input.baseVolumeID != "" && !old(BaseReadable(c, input.baseVolumeID)) ==>
              err.Some? && c.store == old(c.store)
    ensures PoolFound(c, input.poolName) && !old(Taken(c, input.poolName, input.volumeName)) &&
            input.source == "" && input.baseVolumeID == "" ==>
              (err.None? <==> c.KeyIn(input.poolName, input.volumeName) !in old(c.store.volumes) &&
                              Call.VolCreateXML(input.poolName, input.volumeName) !in c.fails &&
                              Call.VolGetKey(c.KeyIn(input.poolName, input.volumeName)) !in c.fails)
    ensures err.None? ==>
              PoolFound(c, input.poolName) && !old(Taken(c, input.poolName, input.volumeName)) &&
              (input.source != "" ==> img.Ok?) &&
              var key := c.KeyIn(input.poolName, input.volumeName);
              var def := DefFor(input, ImageSize(img), old(BackingOf(c, input.baseVolumeID)));
              key !in old(c.store.volumes) &&
              c.store.volumes == old(c.store.volumes)[key := Volume(input.poolName, def, 0,
                                   if input.source != "" then ClientVolume.Uploaded(c, key, def.capacity.value, img.value.data)
                                   else [])]
  {
    var e := c.PoolLookupByName(input.poolName);
    if e.Some? {
      return Some(NoPoolError(input.poolName));
    }
    var refresh := c.PoolRefresh(input.poolName);
    var _ := ClientVolume.Retry("error refreshing pool for volume", refresh);
    var taken := c.VolLookupByName(input.poolName, input.volumeName);
    if taken.Ok? {
      return Some(ClientClient.AlreadyExistsError(input.volumeName));
    }
    var def := VolumeDefFor(c, input, img);
    if def.Err? {
      return Some(def.error);
    }
    err := CreateAndImport(c, input.poolName, def.value.0, input.source, def.value.1);
  }

  /** Whether the volume at `path` can be looked up by its path. */
  predicate PathFound(c: Connect, path: string)
    reads c`store
  {
    path in c.store.volumes && Call.VolLookupByPath(path) !in c.fails
  }

  /** `Client.VolumeExists(name)`: whether the path `baseVolumePath + name` resolves; a failed lookup is no error. */
  method VolumeExists(c: Connect?, name: string) returns (exists_: bool, err: Outcome)
    modifies c
    ensures c == null ==> !exists_ && err == Some(ConnIsNil)
    ensures c != null ==>
              err == None && c.store == old(c.store) &&
              c.trace == old(c.trace) + [Call.VolLookupByPath(UtilsDomain.VolumeKey(name))]
    ensures c != null ==> (exists_ <==> PathFound(c, UtilsDomain.VolumeKey(name)))
  {
    if c == null {
      return false, Some(ConnIsNil);
    }
    var volume := c.VolLookupByPath(UtilsDomain.VolumeKey(name));
    if volume.Err? {
      return false, None;
    }
    return true, None;
  }

  /**
   * `Client.DeleteVolume(name)`: an absent volume is `ErrVolumeNotFound`;
   * otherwise the volume at `baseVolumePath + name` is looked up again, its
   * pool looked up and refreshed (the refresh's outcome ignored), its XML
   * description read and the volume deleted.
   */
  method DeleteVolume(c: Connect?, name: string) returns (err: Outcome, ghost calls: seq<Call>)
    modifies c
    ensures c == null ==> err == Some(ConnIsNil) && calls == []
    ensures c != null ==> c.trace == old(c.trace) + calls
    ensures c != null && !old(PathFound(c, UtilsDomain.VolumeKey(name))) ==>
              err == Some(VolumeNotFound) && c.store == old(c.store) &&
              calls == [Call.VolLookupByPath(UtilsDomain.VolumeKey(name))]
    ensures c != null && old(PathFound(c, UtilsDomain.VolumeKey(name))) &&
            Call.PoolLookupByVolume(UtilsDomain.VolumeKey(name)) in c.fails ==>
              err == Some(Wrap("Error retrieving pool for volume",
                               ErrorOf(c.fails[Call.PoolLookupByVolume(UtilsDomain.VolumeKey(name))]))) &&
              c.store == old(c.store)
    ensures c != null && old(PathFound(c, UtilsDomain.VolumeKey(name))) &&
            Call.PoolLookupByVolume(UtilsDomain.VolumeKey(name)) !in c.fails &&
            Call.VolGetXMLDesc(UtilsDomain.VolumeKey(name)) in c.fails ==>
              err == Some(Wrap("Can't retrieve volume " + UtilsDomain.VolumeKey(name) + " XML desc",
                               ErrorOf(c.fails[Call.VolGetXMLDesc(UtilsDomain.VolumeKey(name))]))) &&
              c.store == old(c.store)
    ensures c != null && old(PathFound(c, UtilsDomain.VolumeKey(name))) &&
            Call.PoolLookupByVolume(UtilsDomain.VolumeKey(name)) !in c.fails &&
            Call.VolGetXMLDesc(UtilsDomain.VolumeKey(name)) !in c.fails &&
            Call.VolDelete(UtilsDomain.VolumeKey(name)) in c.fails ==>
              err == Some(Wrap("Can't delete volume " + UtilsDomain.VolumeKey(name),
                               ErrorOf(c.fails[Call.VolDelete(UtilsDomain.VolumeKey(name))]))) &&
              c.store == old(c.store)
    ensures err.None? <==>
              c != null && old(PathFound(c, UtilsDomain.VolumeKey(name))) &&
              Call.PoolLookupByVolume(UtilsDomain.VolumeKey(name)) !in c.fails &&
              Call.VolGetXMLDesc(UtilsDomain.VolumeKey(name)) !in c.fails &&
              Call.VolDelete(UtilsDomain.VolumeKey(name)) !in c.fails
    ensures c != null && err.None? ==>
              var path := UtilsDomain.VolumeKey(name);
              c.store == old(c.store).(volumes := old(c.store.volumes) - {path}) &&
              calls == [Call.VolLookupByPath(path), Call.VolLookupByPath(path), Call.PoolLookupByVolume(path),
                        Call.PoolRefresh(old(c.store.volumes[path].pool)), Call.VolGetXMLDesc(path), Call.VolDelete(path)]
  {
    var exists_, e := VolumeExists(c, name);
    if e.Some? {
      return e, [];
    }
    var path := UtilsDomain.VolumeKey(name);
    calls := [Call.VolLookupByPath(path)];
    if !exists_ {
      return Some(VolumeNotFound), calls;
    }
    var volume := c.VolLookupByPath(path);
    calls := calls + [Call.VolLookupByPath(path)];
    if volume.Err? {
      // The same lookup has just succeeded, and a call's answer never changes.
      assert false;
      return Some(Fail("Can't retrieve volume " + path)), calls;
    }
    var pool := c.PoolLookupByVolume(volume.value);
    calls := calls + [Call.PoolLookupByVolume(path)];
    if pool.Err? {
      return Some(Wrap("Error retrieving pool for volume", pool.error)), calls;
    }
    var refresh := c.PoolRefresh(pool.value);
    calls := calls + [Call.PoolRefresh(pool.value)];
    var _ := ClientVolume.Retry("Error refreshing pool for volume", refresh);
    var xml := c.VolGetXMLDesc(path);
    calls := calls + [Call.VolGetXMLDesc(path)];
    if xml.Err? {
      return Some(Wrap("Can't retrieve volume " + path + " XML desc", xml.error)), calls;
    }
    err := c.VolDelete(path);
    calls := calls + [Call.VolDelete(path)];
    if err.Some? {
      return Some(Wrap("Can't delete volume " + path, err.value)), calls;
    }
  }
}
