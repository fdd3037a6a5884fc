/**
 * The client facade of the newest generation (pkg/cloud/libvirt/client/client.go):
 * `libvirtClient`, a connection plus the name of the storage pool all
 * volumes live in, and the operations the actuator calls on it.
 */
module ClientClient {
  import opened Wrappers
  import opened Strs
  import opened LibvirtXml
  import opened Hypervisor
  import opened Kube
  import opened Cidr
  import opened ClientVolume
  import ClientDomain
  import ClientNetwork
  import ClientIgnition
  import ClientCloudInit

  // ----- inputs -----

  /** `providerconfigv1.Ignition`: the secret holding the Ignition config. */
  datatype IgnitionConfig = IgnitionConfig(userDataSecret: string)

  /** `providerconfigv1.CloudInit`: the secret holding the user-data script, and whether SSH access is set up. */
  datatype CloudInitConfig = CloudInitConfig(userDataSecret: string, sshAccess: bool)

  /**
   * `CreateDomainInput`.  `networkCIDR` is what `net.ParseCIDR` makes of
   * `networkInterfaceAddress`; `firmware` and `nvram` are the fields
   * `setFirmware` reads.
   */
  datatype CreateDomainInput = CreateDomainInput(
    domainName: string, ignKey: string, ignition: Option<IgnitionConfig>, cloudInit: Option<CloudInitConfig>,
    volumeName: string, cloudInitVolumeName: string, ignitionVolumeName: string,
    networkInterfaceName: string, networkInterfaceAddress: string, networkCIDR: Option<IPNet>,
    hostName: string, autostart: bool, domainMemory: int64, domainVcpu: int64,
    firmware: string, nvram: Option<NVRam>, machineNamespace: string)

  /**
   * What the world outside the hypervisor supplies while a domain is
   * created: the TERRAFORM_LIBVIRT_TEST_DOMAIN_TYPE variable, the
   * Kubernetes secrets, the local files and JSON check of the Ignition
   * content with the temporary file's name, the outcome of building the
   * cloud-init ISO and the ISO read back, and the random MAC bytes.
   */
  datatype World = World(domainTypeEnv: string, secrets: Secrets,
                         files: map<string, seq<byte>>, isJSONObject: bool, ignitionTempName: string,
                         isoErr: Outcome, iso: Result<Image>, macBytes: seq<bv8>, macErr: Outcome)

  /** `CreateVolumeInput` (its `VolumeSize` is never read). */
  datatype CreateVolumeInput = CreateVolumeInput(volumeName: string, baseVolumeName: string, source: string,
                                                 volumeFormat: string)

  /** How a new domain gets its bootstrap configuration. */
  datatype Strategy = ByIgnition | ByIgnKey | ByCloudInit | NoStrategy

  /** The first of Ignition, the Ignition volume key and cloud-init that the input sets. */
  function StrategyOf(input: CreateDomainInput): (s: Strategy)
    ensures s == ByIgnition <==> input.ignition.Some?
    ensures s == ByIgnKey <==> input.ignition.None? && input.ignKey != ""
    ensures s == ByCloudInit <==> input.ignition.None? && input.ignKey == "" && input.cloudInit.Some?
  {
    if input.ignition.Some? then ByIgnition
    else if input.ignKey != "" then ByIgnKey
    else if input.cloudInit.Some? then ByCloudInit
    else NoStrategy
  }

  /** Whether cloud-init has anything to attach: a user-data secret or SSH access. */
  predicate CloudInitAttaches(ci: CloudInitConfig) {
    ci.userDataSecret != "" || ci.sshAccess
  }

  // ----- errors -----

  const EmptyNameError := Fail("Failed to create domain, name is empty")
  const NoStrategyError := Fail("machine does not has a IgnKey nor CloudInit value")
  const SourceAndBaseError := Fail("'base_volume_name' can't be specified when also 'source' is given")

  function VolumeLookupError(name: string, e: Error): Error {
    Wrap("can't retrieve volume " + Quote(name), e)
  }

  function AlreadyExistsError(name: string): Error {
    Fail("storage volume '" + name + "' already exists")
  }

  function NoLeaseError(ip: string): Error {
    Fail("Failed to find hostname for the DHCP lease with IP " + ip)
  }

  /** `libvirt.IsNotFound`: the error is ERR_NO_DOMAIN. */
  predicate IsNotFound(e: Error) {
    e.Virt? && e.code == NoDomain
  }

  /** The codes on which undefining with the NVRAM flag is retried without flags. */
  predicate NoFlagSupport(e: Error) {
    e.Virt? && (e.code == NoSupport || e.code == InvalidArg)
  }

  /** A domain that must be destroyed before it is undefined: running or paused. */
  predicate Active(state: int) {
    state == Running || state == Paused
  }

  // ----- leases -----

  /** The index of the first lease for address `ip`. */
  function FirstLeaseFor(leases: seq<Lease>, ip: string): (i: Option<nat>)
    ensures i.Some? ==> i.value < |leases| && leases[i.value].ipaddr == ip &&
                        forall j :: 0 <= j < i.value ==> leases[j].ipaddr != ip
    ensures i.None? ==> forall j :: 0 <= j < |leases| ==> leases[j].ipaddr != ip
  {
    if |leases| == 0 then None
    else if leases[0].ipaddr == ip then Some(0)
    else match FirstLeaseFor(leases[1..], ip)
         case None => None
         case Some(j) => Some(j + 1)
  }

  /**
   * The host name the first lease for `ip` reports; a lease without a host
   * name makes `Hostname[0]` panic.
   */
  function LeaseHostname(leases: seq<Lease>, ip: string): (r: Result<string>)
    ensures FirstLeaseFor(leases, ip).None? <==> r == Err(NoLeaseError(ip))
    ensures r.Ok? ==> exists i :: 0 <= i < |leases| && leases[i].ipaddr == ip && leases[i].hostnames != [] &&
                                   r.value == leases[i].hostnames[0]
  {
    match FirstLeaseFor(leases, ip)
    case None => Err(NoLeaseError(ip))
    case Some(i) =>
      if leases[i].hostnames == [] then Err(Panic("index out of range [0] with length 0"))
      else Ok(leases[i].hostnames[0])
  }

  /** The first lease for an address decides; later leases for it are never read. */
  lemma LeaseHostnameFirst(leases: seq<Lease>, l: Lease, more: seq<Lease>, ip: string)
    requires l.ipaddr == ip
    requires forall j :: 0 <= j < |leases| ==> leases[j].ipaddr != ip
    ensures LeaseHostname(leases + [l] + more, ip) ==
            if l.hostnames == [] then Err(Panic("index out of range [0] with length 0"))
            else Ok(l.hostnames[0])
  {
    FirstLeaseAt(leases, l, more, ip);
  }

  /** The first lease for `ip` is the one after all the leases for other addresses. */
  lemma {:induction false} FirstLeaseAt(leases: seq<Lease>, l: Lease, more: seq<Lease>, ip: string)
    requires l.ipaddr == ip
    requires forall j :: 0 <= j < |leases| ==> leases[j].ipaddr != ip
    ensures FirstLeaseFor(leases + [l] + more, ip) == Some(|leases|)
  {
    var all := leases + [l] + more;
    if leases != [] {
      assert all[0] == leases[0];
      assert all[1..] == leases[1..] + [l] + more;
      FirstLeaseAt(leases[1..], l, more, ip);
    }
  }

  /**
   * The definition of a volume layered on a base volume: the default volume
   * with the requested format, as large as the larger of the base's capacity
   * and allocation, backed by the base.
   */
  function LayeredDef(name: string, format: string, capacity: uint64, allocation: uint64, backing: BackingStore)
    : (d: VolumeDef)
    ensures d.capacity.value >= capacity && d.capacity.value >= allocation
    ensures d.capacity.value == capacity || d.capacity.value == allocation
    ensures d == NewDefVolume(name).(format := format, capacity := d.capacity, backing := Some(backing))
  {
    NewDefVolume(name).(format := format,
                        capacity := Capacity("bytes", if capacity > allocation then capacity else allocation),
                        backing := Some(backing))
  }

  class LibvirtClient {
    /** The connection to libvirt (`virt`). */
    const virt: Connect
    /** Whether the network connection under it is set (`connection != nil`). */
    const connected: bool
    /** The storage pool that holds all volumes. */
    const poolName: string

    constructor (virt0: Connect, connected0: bool, poolName0: string)
      ensures virt == virt0 && connected == connected0 && poolName == poolName0
    {
      virt := virt0;
      connected := connected0;
      poolName := poolName0;
    }

    // ----- volumes -----

    /** The answer of `StorageVolLookupByName(pool, name)`. */
    function ByName(name: string): Result<string>
      reads virt`store
    {
      virt.Answer(Call.VolLookupByName(poolName, name), virt.VolumeNamed(poolName, name), NoStorageVol)
    }

    /** The answer of `StorageVolLookupByKey(key)`. */
    function ByKey(key: string): Result<string>
      reads virt`store
    {
      virt.Answer(Call.VolLookupByKey(key), if key in virt.store.volumes then Some(key) else None, NoStorageVol)
    }

    /**
     * What `getVolume(name)` finds: the volume of that name in the pool,
     * else the volume with that key.
     */
    function VolumeOf(name: string): (r: Result<string>)
      reads virt`store
      ensures r.Ok? <==> ByName(name).Ok? || ByKey(name).Ok?
      ensures r.Ok? ==> r.value in virt.store.volumes
      ensures ByName(name).Ok? ==> r.value == virt.KeyIn(poolName, name)
      ensures ByName(name).Err? && ByKey(name).Ok? ==> r.value == name
      ensures r.Err? ==> r.error == VolumeLookupError(name, ByKey(name).error)
    {
      if ByName(name).Ok? then ByName(name)
      else if ByKey(name).Ok? then ByKey(name)
      else Err(VolumeLookupError(name, ByKey(name).error))
    }

    /** With both lookups working, a volume is found exactly when it is there under its name or its key. */
    lemma VolumeOfFound(name: string)
      requires Call.VolLookupByName(poolName, name) !in virt.fails && Call.VolLookupByKey(name) !in virt.fails
      ensures VolumeOf(name).Ok? <==> virt.VolumeNamed(poolName, name).Some? || name in virt.store.volumes
    {
    }

    /** `getVolume(name)`: looks the volume up by name in the pool, then by key. */
    method GetVolume(name: string) returns (r: Result<string>)
      modifies virt
      ensures virt.store == old(virt.store)
      ensures r == old(VolumeOf(name))
      ensures virt.trace == old(virt.trace) + [Call.VolLookupByName(poolName, name)] +
                            (if old(ByName(name)).Ok? then [] else [Call.VolLookupByKey(name)])
    {
      r := virt.VolLookupByName(poolName, name);
      if r.Err? {
        r := virt.VolLookupByKey(name);
        if r.Err? {
          return Err(VolumeLookupError(name, r.error));
        }
      }
    }

    /** `VolumeExists(name)`: whether `getVolume` finds it; a failed lookup is no error. */
    method VolumeExists(name: string) returns (exists_: bool, err: Outcome)
      modifies virt
      ensures virt.store == old(virt.store)
      ensures !connected ==> !exists_ && err == Some(ConnIsNil) && virt.trace == old(virt.trace)
      ensures connected ==> err == None && (exists_ <==> old(VolumeOf(name)).Ok?)
    {
      if !connected {
        return false, Some(ConnIsNil);
      }
      var v := GetVolume(name);
      return v.Ok?, None;
    }

    /**
     * `DeleteVolume(name)`: an absent volume is `ErrVolumeNotFound`; otherwise
     * its pool is looked up (and the refresh retried, its result ignored)
     * and the volume deleted.
     */
    method DeleteVolume(name: string) returns (err: Outcome)
      modifies virt
      ensures !connected ==> err == Some(ConnIsNil) && virt.trace == old(virt.trace)
      ensures connected && old(VolumeOf(name)).Err? ==> err == Some(VolumeNotFound) && virt.store == old(virt.store)
      ensures connected && old(VolumeOf(name)).Ok? ==>
                var key := old(VolumeOf(name)).value;
                (Call.PoolLookupByVolume(key) in virt.fails ==>
                   err == Some(Wrap("Error retrieving pool for volume", ErrorOf(virt.fails[Call.PoolLookupByVolume(key)]))) &&
                   virt.store == old(virt.store)) &&
                (Call.PoolLookupByVolume(key) !in virt.fails && Call.VolDelete(key) in virt.fails ==>
                   err == Some(Wrap("Can't delete volume " + name, ErrorOf(virt.fails[Call.VolDelete(key)]))) &&
                   virt.store == old(virt.store)) &&
                (Call.PoolLookupByVolume(key) !in virt.fails && Call.VolDelete(key) !in virt.fails ==>
                   err == None && virt.store == old(virt.store).(volumes := old(virt.store.volumes) - {key}))
      ensures err.None? ==> connected && old(VolumeOf(name)).Ok?
    {
      var exists_, e := VolumeExists(name);
      if e.Some? {
        return e;
      }
      if !exists_ {
        return Some(VolumeNotFound);
      }
      var volume := GetVolume(name);
      if volume.Err? {
        // The same lookup has just succeeded, and a call's answer never changes.
        assert false;
        return Some(Fail("Can't retrieve volume " + name));
      }
      var pool := virt.PoolLookupByVolume(volume.value);
      if pool.Err? {
        return Some(Wrap("Error retrieving pool for volume", pool.error));
      }
      var _ := virt.PoolLookupByVolume(volume.value);
      err := virt.VolDelete(volume.value);
      if err.Some? {
        return Some(Wrap("Can't delete volume " + name, err.value));
      }
    }

    // ----- domains -----

    /** The answer of `DomainLookupByName(name)`. */
    function DomainAnswer(name: string): Result<DomainRecord>
      reads virt`store
    {
      virt.Answer(Call.DomainLookupByName(name), if name in virt.store.domains then Some(virt.store.domains[name]) else None,
                  NoDomain)
    }

    /** `LookupDomainByName(name)`. */
    method LookupDomainByName(name: string) returns (r: Result<DomainRecord>)
      modifies virt
      ensures virt.store == old(virt.store)
      ensures !connected ==> r == Err(ConnIsNil) && virt.trace == old(virt.trace)
      ensures connected ==> r == old(DomainAnswer(name))
      ensures connected && Call.DomainLookupByName(name) !in virt.fails ==>
                (r.Ok? <==> name in virt.store.domains) && (r.Ok? ==> r.value == virt.store.domains[name])
    {
      if !connected {
        return Err(ConnIsNil);
      }
      r := virt.DomainLookupByName(name);
    }

    /** `DomainExists(name)`: "not found" is a plain no, any other lookup failure is returned. */
    method DomainExists(name: string) returns (exists_: bool, err: Outcome)
      modifies virt
      ensures virt.store == old(virt.store)
      ensures !connected ==> !exists_ && err == Some(ConnIsNil) && virt.trace == old(virt.trace)
      ensures connected ==> virt.trace == old(virt.trace) + [Call.DomainLookupByName(name)]
      ensures connected ==> (exists_ <==> old(DomainAnswer(name)).Ok?)
      ensures connected ==> (err.None? <==> old(DomainAnswer(name)).Ok? || IsNotFound(old(DomainAnswer(name)).error))
      ensures connected && err.Some? ==> err == Some(old(DomainAnswer(name)).error)
      ensures connected && Call.DomainLookupByName(name) !in virt.fails ==>
                err == None && (exists_ <==> name in virt.store.domains)
    {
      if !connected {
        return false, Some(ConnIsNil);
      }
      var d := virt.DomainLookupByName(name);
      if d.Err? {
        if IsNotFound(d.error) {
          return false, None;
        }
        return false, Some(d.error);
      }
      return true, None;
    }

    /**
     * The undefine step of `DeleteDomain`: with the NVRAM flag, and again
     * without flags when libvirt does not support the flag.
     */
    method Undefine(name: string) returns (err: Outcome, ghost calls: seq<Call>)
      requires name in virt.store.domains
      modifies virt
      ensures virt.trace == old(virt.trace) + calls
      ensures calls == [Call.DomainUndefineFlags(name)] +
                       if Call.DomainUndefineFlags(name) in virt.fails &&
                          NoFlagSupport(ErrorOf(virt.fails[Call.DomainUndefineFlags(name)]))
                       then [Call.DomainUndefine(name)] else []
      ensures err.None? <==> Call.DomainUndefineFlags(name) !in virt.fails ||
                             (NoFlagSupport(ErrorOf(virt.fails[Call.DomainUndefineFlags(name)])) &&
                              Call.DomainUndefine(name) !in virt.fails)
      ensures Call.DomainUndefineFlags(name) in virt.fails && !NoFlagSupport(ErrorOf(virt.fails[Call.DomainUndefineFlags(name)])) ==>
                err == Some(Wrap("couldn't undefine libvirt domain with flags", ErrorOf(virt.fails[Call.DomainUndefineFlags(name)])))
      ensures Call.DomainUndefineFlags(name) in virt.fails && NoFlagSupport(ErrorOf(virt.fails[Call.DomainUndefineFlags(name)])) &&
              Call.DomainUndefine(name) in virt.fails ==>
                err == Some(Wrap("couldn't undefine libvirt domain", ErrorOf(virt.fails[Call.DomainUndefine(name)])))
      ensures virt.store == if err.None? then old(virt.store).(domains := old(virt.store.domains) - {name}) else old(virt.store)
    {
      var e := virt.DomainUndefineFlags(name);
      calls := [Call.DomainUndefineFlags(name)];
      if e.Some? {
        if NoFlagSupport(e.value) {
          var e2 := virt.DomainUndefine(name);
          calls := calls + [Call.DomainUndefine(name)];
          if e2.Some? {
            return Some(Wrap("couldn't undefine libvirt domain", e2.value)), calls;
          }
        } else {
          return Some(Wrap("couldn't undefine libvirt domain with flags", e.value)), calls;
        }
      }
      err := None;
    }

    /**
     * `DeleteDomain(name)`: an absent domain is `ErrDomainNotFound`; a
     * running or paused domain is destroyed first; then it is undefined.
     */
    method DeleteDomain(name: string) returns (err: Outcome, ghost calls: seq<Call>)
      modifies virt
      ensures virt.trace == old(virt.trace) + calls
      ensures !connected ==> err == Some(ConnIsNil) && calls == []
      ensures connected && old(DomainAnswer(name)).Err? ==>
                virt.store == old(virt.store) &&
                err == Some(if IsNotFound(old(DomainAnswer(name)).error) then DomainNotFound else old(DomainAnswer(name)).error)
      ensures connected && old(DomainAnswer(name)).Ok? && Call.DomainGetState(name) in virt.fails ==>
                virt.store == old(virt.store) &&
                err == Some(Wrap("Couldn't get info about domain", ErrorOf(virt.fails[Call.DomainGetState(name)])))
      ensures Call.DomainDestroy(name) in calls <==>
                connected && old(DomainAnswer(name)).Ok? && Call.DomainGetState(name) !in virt.fails &&
                Active(old(virt.store.domains[name].state))
      ensures Call.DomainDestroy(name) in virt.fails && Call.DomainDestroy(name) in calls ==>
                virt.store == old(virt.store) &&
                err == Some(Wrap("Couldn't destroy libvirt domain", ErrorOf(virt.fails[Call.DomainDestroy(name)])))
      ensures Call.DomainUndefineFlags(name) in calls <==>
                connected && old(DomainAnswer(name)).Ok? && Call.DomainGetState(name) !in virt.fails &&
                (Active(old(virt.store.domains[name].state)) ==> Call.DomainDestroy(name) !in virt.fails)
      ensures err.None? ==> Call.DomainUndefineFlags(name) in calls && name in old(virt.store.domains) &&
                            virt.store == old(virt.store).(domains := old(virt.store.domains) - {name})
      ensures virt.store.volumes == old(virt.store.volumes) && virt.store.networks == old(virt.store.networks)
      ensures virt.store.domains - {name} == old(virt.store.domains) - {name}
    {
      calls := [];
      var exists_, e := DomainExists(name);
      if connected {
        calls := calls + [Call.DomainLookupByName(name)];
      }
      if e.Some? {
        return e, calls;
      }
      if !exists_ {
        return Some(DomainNotFound), calls;
      }
      if !connected {
        // DomainExists has just answered through the connection.
        assert false;
        return Some(ConnIsNil), calls;
      }
      ghost var more;
      err, more := RemoveDomain(name);
      calls := calls + more;
    }

    /**
     * The part of `DeleteDomain` after the existence check: the domain is
     * looked up again, destroyed when it is running or paused, and undefined.
     */
    method RemoveDomain(name: string) returns (err: Outcome, ghost calls: seq<Call>)
      requires name in virt.store.domains && Call.DomainLookupByName(name) !in virt.fails
      modifies virt
      ensures virt.trace == old(virt.trace) + calls
      ensures Call.DomainGetState(name) in virt.fails ==>
                virt.store == old(virt.store) &&
                err == Some(Wrap("Couldn't get info about domain", ErrorOf(virt.fails[Call.DomainGetState(name)])))
      ensures Call.DomainDestroy(name) in calls <==>
                Call.DomainGetState(name) !in virt.fails && Active(old(virt.store.domains[name].state))
      ensures Call.DomainDestroy(name) in virt.fails && Call.DomainDestroy(name) in calls ==>
                virt.store == old(virt.store) &&
                err == Some(Wrap("Couldn't destroy libvirt domain", ErrorOf(virt.fails[Call.DomainDestroy(name)])))
      ensures Call.DomainUndefineFlags(name) in calls <==>
                Call.DomainGetState(name) !in virt.fails &&
                (Active(old(virt.store.domains[name].state)) ==> Call.DomainDestroy(name) !in virt.fails)
      ensures err.None? ==> Call.DomainUndefineFlags(name) in calls &&
                            virt.store == old(virt.store).(domains := old(virt.store.domains) - {name})
      ensures virt.store.volumes == old(virt.store.volumes) && virt.store.networks == old(virt.store.networks)
      ensures virt.store.domains - {name} == old(virt.store.domains) - {name}
    {
      var domain := virt.DomainLookupByName(name);
      calls := [Call.DomainLookupByName(name)];
      if domain.Err? {
        // The same lookup has just succeeded, and a call's answer never changes.
        assert false;
        return Some(Fail("Error retrieving libvirt domain")), calls;
      }
      ghost var rest;
      err, rest := StopAndUndefine(name);
      calls := calls + rest;
    }

    /** The steps of `RemoveDomain` after the lookup: read the state, destroy a running domain, undefine it. */
    method StopAndUndefine(name: string) returns (err: Outcome, ghost calls: seq<Call>)
      requires name in virt.store.domains
      modifies virt
      ensures virt.trace == old(virt.trace) + calls
      ensures Call.DomainLookupByName(name) !in calls
      ensures Call.DomainGetState(name) in virt.fails ==>
                virt.store == old(virt.store) &&
                err == Some(Wrap("Couldn't get info about domain", ErrorOf(virt.fails[Call.DomainGetState(name)])))
      ensures Call.DomainDestroy(name) in calls <==>
                Call.DomainGetState(name) !in virt.fails && Active(old(virt.store.domains[name].state))
      ensures Call.DomainDestroy(name) in virt.fails && Call.DomainDestroy(name) in calls ==>
                virt.store == old(virt.store) &&
                err == Some(Wrap("Couldn't destroy libvirt domain", ErrorOf(virt.fails[Call.DomainDestroy(name)])))
      ensures Call.DomainUndefineFlags(name) in calls <==>
                Call.DomainGetState(name) !in virt.fails &&
                (Active(old(virt.store.domains[name].state)) ==> Call.DomainDestroy(name) !in virt.fails)
      ensures err.None? ==> Call.DomainUndefineFlags(name) in calls &&
                            virt.store == old(virt.store).(domains := old(virt.store.domains) - {name})
      ensures virt.store.volumes == old(virt.store.volumes) && virt.store.networks == old(virt.store.networks)
      ensures virt.store.domains - {name} == old(virt.store.domains) - {name}
    {
      var state := virt.DomainGetState(name);
      calls := [Call.DomainGetState(name)];
      if state.Err? {
        return Some(Wrap("Couldn't get info about domain", state.error)), calls;
      }
      ghost var rest;
      err, rest := DestroyThenUndefine(name, Active(state.value));
      calls := calls + rest;
    }

    /** Destroys a running domain, then undefines it. */
    method DestroyThenUndefine(name: string, active: bool) returns (err: Outcome, ghost calls: seq<Call>)
      requires name in virt.store.domains && active == Active(virt.store.domains[name].state)
      modifies virt
      ensures virt.trace == old(virt.trace) + calls
      ensures Call.DomainLookupByName(name) !in calls && Call.DomainGetState(name) !in calls
      ensures Call.DomainDestroy(name) in calls <==> active
      ensures Call.DomainDestroy(name) in virt.fails && Call.DomainDestroy(name) in calls ==>
                virt.store == old(virt.store) &&
                err == Some(Wrap("Couldn't destroy libvirt domain", ErrorOf(virt.fails[Call.DomainDestroy(name)])))
      ensures Call.DomainUndefineFlags(name) in calls <==> (active ==> Call.DomainDestroy(name) !in virt.fails)
      ensures err.None? ==> Call.DomainUndefineFlags(name) in calls &&
                            virt.store == old(virt.store).(domains := old(virt.store.domains) - {name})
      ensures virt.store.volumes == old(virt.store.volumes) && virt.store.networks == old(virt.store.networks)
      ensures virt.store.domains - {name} == old(virt.store.domains) - {name}
    {
      calls := [];
      if active {
        var d := virt.DomainDestroy(name);
        calls := [Call.DomainDestroy(name)];
        if d.Some? {
          return Some(Wrap("Couldn't destroy libvirt domain", d.value)), calls;
        }
      }
      ghost var more;
      err, more := Undefine(name);
      calls := calls + more;
    }

    // ----- creating volumes -----

    /**
     * `CreateVolume(input)`.  A name that `getVolume` resolves is already
     * taken.  A source image gives the size in bytes; a base volume gives the
     * larger of its capacity and allocation and becomes the backing store.
     * `volume` starts as the zero volume (empty key) and is cleared only on
     * the base-volume path, so the pool-side create runs only there; the
     * source image is copied into whatever `volume` holds.  `img` is the
     * image `newImage` reads from the source, or the error reading it or its
     * size gives.
     */
    method CreateVolume(input: CreateVolumeInput, img: Result<Image>) returns (err: Outcome)
      modifies virt
      ensures virt.store.domains == old(virt.store.domains) && virt.store.networks == old(virt.store.networks)
      ensures old(VolumeOf(input.volumeName)).Ok? ==>
                err == Some(AlreadyExistsError(input.volumeName)) && virt.store == old(virt.store)
      ensures err.None? ==> old(VolumeOf(input.volumeName)).Err?
      ensures old(VolumeOf(input.volumeName)).Err? && input.source != "" && input.baseVolumeName != "" ==>
                err == Some(SourceAndBaseError) && virt.store == old(virt.store)
      ensures old(VolumeOf(input.volumeName)).Err? && input.source == "" && input.baseVolumeName == "" ==>
                err == None && virt.store == old(virt.store)
      ensures old(VolumeOf(input.volumeName)).Err? && input.source != "" && input.baseVolumeName == "" && img.Err? ==>
                err == Some(img.error) && virt.store == old(virt.store)
      ensures input.source != "" ==> virt.store.volumes.Keys == old(virt.store.volumes).Keys
      ensures input.source != "" && err.None? ==> "" in old(virt.store.volumes)
      ensures old(VolumeOf(input.volumeName)).Err? && input.source == "" && input.baseVolumeName != "" &&
              old(VolumeOf(input.baseVolumeName)).Err? ==>
                err == Some(Fail("Can't retrieve volume " + input.baseVolumeName)) && virt.store == old(virt.store)
      ensures input.source == "" && input.baseVolumeName != "" && err.None? ==>
                old(VolumeOf(input.baseVolumeName)).Ok? && poolName in virt.pools &&
                var key := virt.KeyIn(poolName, input.volumeName);
                var base := old(virt.store.volumes[VolumeOf(input.baseVolumeName).value]);
                key !in old(virt.store.volumes) &&
                virt.store.volumes == old(virt.store.volumes)[key := Volume(poolName,
                  LayeredDef(input.volumeName, input.volumeFormat, base.def.capacity.value, base.allocation,
                             BackingStore(old(VolumeOf(input.baseVolumeName)).value, base.def.format)), 0, [])]
    {
      var v := GetVolume(input.volumeName);
      if v.Ok? {
        return Some(AlreadyExistsError(input.volumeName));
      }
      // `volume = &v`: the zero volume, whose key is empty.
      var volume: Option<string> := Some("");
      var def := NewDefVolume(input.volumeName).(format := input.volumeFormat);
      var image := Image("", []);
      if input.source != "" {
        if input.baseVolumeName != "" {
          return Some(SourceAndBaseError);
        }
        if img.Err? {
          return Some(img.error);
        }
        image := img.value;
        def := def.(capacity := Capacity("B", ToUint64(|image.data|)));
      } else if input.baseVolumeName != "" {
        volume := None;
        var layered := DefFromBase(input.volumeName, input.volumeFormat, input.baseVolumeName);
        if layered.Err? {
          return Some(layered.error);
        }
        def := layered.value;
      }
      if volume.None? {
        var created := CreateInPool(def);
        if created.Err? {
          return Some(created.error);
        }
        volume := Some(created.value);
      }
      if input.source != "" {
        var e := Copy(virt, volume.value, def.capacity.value, image.data);
        if e.Some? {
          return Some(Wrap("Error while uploading source " + image.location, e.value));
        }
      }
      err := None;
    }

    /**
     * The base-volume path of `CreateVolume`: the base is looked up with
     * `getVolume`, its size read with `StorageVolGetInfo` and its backing
     * store built, each failure with its own message.
     */
    method DefFromBase(name: string, format: string, baseName: string) returns (r: Result<VolumeDef>)
      modifies virt
      ensures virt.store == old(virt.store)
      ensures old(VolumeOf(baseName)).Err? ==> r == Err(Fail("Can't retrieve volume " + baseName))
      ensures r.Ok? ==>
                old(VolumeOf(baseName)).Ok? &&
                var key := old(VolumeOf(baseName)).value;
                var base := virt.store.volumes[key];
                r.value == LayeredDef(name, format, base.def.capacity.value, base.allocation, BackingStore(key, base.def.format))
    {
      var base := GetVolume(baseName);
      if base.Err? {
        return Err(Fail("Can't retrieve volume " + baseName));
      }
      var info := virt.VolGetInfo(base.value);
      if info.Err? {
        return Err(Fail("Can't retrieve volume info " + baseName));
      }
      var capacity := if info.value.0 > info.value.1 then info.value.0 else info.value.1;
      var def := NewDefVolume(name).(format := format);
      def := def.(capacity := def.capacity.(value := capacity));
      var backing := NewDefBackingStoreFromLibvirt(virt, base.value);
      if backing.Err? {
        return Err(Fail("Could not retrieve backing store " + baseName));
      }
      return Ok(def.(backing := Some(backing.value)));
    }

    /**
     * The pool-side create of `CreateVolume`: waits for the client's pool to
     * be found, looks it up again and creates the volume in it.
     */
    method CreateInPool(def: VolumeDef) returns (r: Result<string>)
      modifies virt
      ensures r.Err? ==> virt.store == old(virt.store)
      ensures virt.Effect(Call.PoolLookupByName(poolName), poolName in virt.pools, NoStoragePool).Some? ==>
                r == Err(Fail("can't find storage pool '" + poolName + "'"))
      ensures r.Ok? ==>
                poolName in virt.pools && r.value == virt.KeyIn(poolName, def.name) && r.value !in old(virt.store.volumes) &&
                virt.store == old(virt.store).(volumes := old(virt.store.volumes)[r.value := Volume(poolName, def, 0, [])])
    {
      var e := virt.PoolLookupByName(poolName);
      e := Retry("error refreshing pool for volume", e);
      if e.Some? {
        return Err(Fail("can't find storage pool '" + poolName + "'"));
      }
      e := virt.PoolLookupByName(poolName);
      if e.Some? {
        // The same lookup has just succeeded, and a call's answer never changes.
        assert false;
        return Err(Fail("can't find storage pool"));
      }
      r := virt.VolCreateXML(poolName, def);
      if r.Err? {
        return Err(Wrap("Error creating libvirt volume", r.error));
      }
    }

    // ----- creating domains -----

    /**
     * The steps of `CreateDomain` that fill in the definition from the input
     * and attach the machine's disk: `domainDefInit`, then `getVolume` and
     * `setDisks` for the disk volume.
     */
    method AttachDisk(d: ClientDomain.Domain, input: CreateDomainInput) returns (err: Outcome)
      modifies d, virt
      ensures virt.store == old(virt.store)
      ensures input.domainName == "" || input.domainMemory == 0 || input.domainVcpu == 0 ==>
                err.Some? && err.value.Wrap? && err.value.context == "Failed to init domain definition from machineProviderConfig"
      ensures err.None? ==>
                input.domainName != "" && input.domainMemory != 0 && input.domainVcpu != 0 &&
                old(VolumeOf(input.volumeName)).Ok? &&
                d.def == old(d.def).(name := input.domainName, memory := Memory(ToUint64(input.domainMemory), "MiB"),
                                     vcpu := VCPU("", input.domainVcpu), cpuMode := "host-passthrough",
                                     os := ClientDomain.WithFirmware(old(d.def).os, input.firmware, input.nvram),
                                     devices := old(d.def).devices.(disks := old(d.def).devices.disks +
                                       [ClientDomain.NewDefDisk(0).(source := Some(old(VolumeOf(input.volumeName)).value))]))
    {
      var e := d.DomainDefInit(input.domainName, input.domainMemory, input.domainVcpu, input.firmware, input.nvram);
      if e.Some? {
        return Some(Wrap("Failed to init domain definition from machineProviderConfig", e.value));
      }
      var disk := GetVolume(input.volumeName);
      if disk.Err? {
        return Some(Wrap("can't retrieve volume " + input.volumeName + " for pool " + poolName, disk.error));
      }
      e := d.SetDisks(virt, disk.value);
      if e.Some? {
        return Some(Wrap("Failed to setDisks", e.value));
      }
      err := None;
    }

    /**
     * The bootstrap step of `CreateDomain`: the first of an Ignition secret,
     * an Ignition volume key and a cloud-init configuration that the input
     * sets decides how the machine gets its configuration.
     */
    method Bootstrap(d: ClientDomain.Domain, input: CreateDomainInput, w: World, arch: string) returns (err: Outcome)
      modifies d, virt
      ensures virt.store.domains == old(virt.store.domains) && virt.store.networks == old(virt.store.networks)
      ensures StrategyOf(input) == NoStrategy ==>
                err == Some(NoStrategyError) && virt.store == old(virt.store) && virt.trace == old(virt.trace)
      ensures StrategyOf(input) == ByIgnition && err.None? ==>
                poolName in virt.pools &&
                d.def == old(d.def).(qemuArgs := Some(ClientDomain.FwCfgArgs(virt.KeyIn(poolName, input.ignitionVolumeName))))
      ensures StrategyOf(input) == ByIgnKey ==> virt.store == old(virt.store)
      ensures StrategyOf(input) == ByIgnKey && old(VolumeOf(input.ignKey)).Err? ==>
                err == Some(Wrap("error getting ignition volume", old(VolumeOf(input.ignKey)).error))
      ensures StrategyOf(input) == ByIgnKey && err.None? ==>
                old(VolumeOf(input.ignKey)).Ok? &&
                var key := old(VolumeOf(input.ignKey)).value;
                key != "" &&
                (ClientDomain.IsS390OrPPC64(arch) ==>
                   d.def == old(d.def).(devices := old(d.def).devices.(disks := old(d.def).devices.disks +
                                                                                  [ClientDomain.IgnitionDisk(key)]))) &&
                (!ClientDomain.IsS390OrPPC64(arch) ==> d.def == old(d.def).(qemuArgs := Some(ClientDomain.FwCfgArgs(key))))
      ensures StrategyOf(input) == ByCloudInit && !CloudInitAttaches(input.cloudInit.value) ==>
                err == None && d.def == old(d.def) && virt.store == old(virt.store)
      ensures StrategyOf(input) == ByCloudInit && CloudInitAttaches(input.cloudInit.value) && err.None? ==>
                poolName in virt.pools &&
                d.def == old(d.def).(devices := old(d.def).devices.(disks := old(d.def).devices.disks +
                                       [ClientCloudInit.CdromDisk(virt.KeyIn(poolName, input.cloudInitVolumeName))]))
    {
      match StrategyOf(input)
      case ByIgnition =>
        err := ClientIgnition.SetIgnition(d, virt, input.ignition.value.userDataSecret, w.secrets, input.machineNamespace,
                                          input.ignitionVolumeName, poolName, w.files, w.isJSONObject, w.ignitionTempName);
      case ByIgnKey =>
        err := BootFromVolume(d, input.ignKey, arch);
      case ByCloudInit =>
        var ci := input.cloudInit.value;
        var userData, metaData;
        err, userData, metaData := ClientCloudInit.SetCloudInit(d, virt, poolName, ci.userDataSecret, ci.sshAccess,
                                                                w.secrets, input.machineNamespace,
                                                                input.cloudInitVolumeName, input.domainName, w.isoErr, w.iso);
      case NoStrategy =>
        err := Some(NoStrategyError);
    }

    /**
     * The Ignition-key branch of `CreateDomain`: the volume `ignKey` names
     * (by name or by key) is looked up, and its path becomes the domain's
     * Ignition source.
     */
    method BootFromVolume(d: ClientDomain.Domain, ignKey: string, arch: string) returns (err: Outcome)
      modifies d, virt
      ensures virt.store == old(virt.store)
      ensures err.Some? ==> d.def == old(d.def)
      ensures old(VolumeOf(ignKey)).Err? ==> err == Some(Wrap("error getting ignition volume", old(VolumeOf(ignKey)).error))
      ensures err.None? ==>
                old(VolumeOf(ignKey)).Ok? &&
                var key := old(VolumeOf(ignKey)).value;
                key != "" &&
                (ClientDomain.IsS390OrPPC64(arch) ==>
                   d.def == old(d.def).(devices := old(d.def).devices.(disks := old(d.def).devices.disks +
                                                                                  [ClientDomain.IgnitionDisk(key)]))) &&
                (!ClientDomain.IsS390OrPPC64(arch) ==> d.def == old(d.def).(qemuArgs := Some(ClientDomain.FwCfgArgs(key))))
    {
      var ignVolume := GetVolume(ignKey);
      if ignVolume.Err? {
        return Some(Wrap("error getting ignition volume", ignVolume.error));
      }
      var path := virt.VolGetPath(ignVolume.value);
      if path.Err? {
        return Some(Wrap("error getting ignition volume path", path.error));
      }
      err := d.SetCoreOSIgnition(path.value, arch);
    }

    /**
     * The start of `CreateDomain`: the definition `newDomainDefForConnection`
     * builds for the host, and the host architecture.
     */
    method Skeleton(domainTypeEnv: string) returns (r: Result<(DomainDef, string)>)
      modifies virt
      ensures virt.store == old(virt.store)
      ensures Call.GetCapabilities in virt.fails ==>
                r == Err(Wrap("Failed to newDomainDefForConnection", ErrorOf(virt.fails[Call.GetCapabilities])))
      ensures r.Ok? ==>
                r.value.1 == virt.caps.hostArch && r.value.0.devices.disks == [] &&
                r.value.0.devices.interfaces == [] && r.value.0.qemuArgs == None
    {
      var base := ClientDomain.NewDomainDefForConnection(virt, domainTypeEnv);
      if base.Err? {
        return Err(Wrap("Failed to newDomainDefForConnection", base.error));
      }
      var arch := ClientDomain.GetHostArchitecture(virt);
      if arch.Err? {
        // The capabilities have just been read.
        assert false;
        return Err(Fail("Error retrieving host architecture"));
      }
      return Ok((base.value, arch.value));
    }

    /**
     * What a definition built for `input` on a host of architecture `arch`
     * holds before its network interface is added: the input's name, memory
     * in MiB, vCPU count and host-passthrough CPU; first the machine's disk
     * (`root` is the volume `getVolume` found for it); and the bootstrap
     * configuration of the strategy the input selects (`ign` is the volume
     * found for the Ignition key).
     */
    ghost predicate Booted(input: CreateDomainInput, arch: string, root: Result<string>, ign: Result<string>, def: DomainDef) {
      root.Ok? &&
      var disk := ClientDomain.NewDefDisk(0).(source := Some(root.value));
      def.name == input.domainName && def.memory == Memory(ToUint64(input.domainMemory), "MiB") &&
      def.vcpu == VCPU("", input.domainVcpu) && def.cpuMode == "host-passthrough" &&
      (StrategyOf(input) == ByIgnition ==>
         poolName in virt.pools && def.devices.disks == [disk] &&
         def.qemuArgs == Some(ClientDomain.FwCfgArgs(virt.KeyIn(poolName, input.ignitionVolumeName)))) &&
      (StrategyOf(input) == ByIgnKey ==>
         ign.Ok? &&
         (ClientDomain.IsS390OrPPC64(arch) ==>
            def.devices.disks == [disk, ClientDomain.IgnitionDisk(ign.value)] && def.qemuArgs == None) &&
         (!ClientDomain.IsS390OrPPC64(arch) ==>
            def.devices.disks == [disk] && def.qemuArgs == Some(ClientDomain.FwCfgArgs(ign.value)))) &&
      (StrategyOf(input) == ByCloudInit ==>
         def.qemuArgs == None &&
         (CloudInitAttaches(input.cloudInit.value) ==>
            poolName in virt.pools &&
            def.devices.disks == [disk, ClientCloudInit.CdromDisk(virt.KeyIn(poolName, input.cloudInitVolumeName))]) &&
         (!CloudInitAttaches(input.cloudInit.value) ==> def.devices.disks == [disk])) &&
      StrategyOf(input) != NoStrategy
    }

    /** A booted definition with exactly one new network interface. */
    ghost predicate Dressed(input: CreateDomainInput, arch: string, root: Result<string>, ign: Result<string>, def: DomainDef) {
      Booted(input, arch, root, ign, def) &&
      |def.devices.interfaces| == 1 && ClientDomain.NewInterface(def.devices.interfaces[0], input.networkInterfaceName)
    }

    /** The machine's interface is attached to a network that serves DHCP. */
    ghost predicate JoinsDHCP(input: CreateDomainInput, networks: map<string, NetworkRecord>) {
      input.networkInterfaceName != "" && ClientDomain.OffersDHCP(networks, input.networkInterfaceName)
    }

    /**
     * The machine joined its DHCP network: the first free address from host
     * 51 is reserved and is the network's static host for the interface's
     * MAC and the host name (the domain name when none is given).
     */
    ghost predicate JoinedAs(input: CreateDomainInput, networks: map<string, NetworkRecord>,
                             before: map<string, string>, after: map<string, string>, mac: string) {
      ClientDomain.JoinedDHCP(networks, input.networkInterfaceName, input.networkInterfaceAddress, input.networkCIDR,
                              before, after, mac, ClientDomain.Hostname(input.domainName, input.hostName))
    }

    /** `Booted` does not look at the interfaces. */
    lemma BootedIgnoresInterfaces(input: CreateDomainInput, arch: string, root: Result<string>, ign: Result<string>,
                                  def: DomainDef, interfaces: seq<Interface>)
      requires Booted(input, arch, root, ign, def)
      ensures Booted(input, arch, root, ign, def.(devices := def.devices.(interfaces := interfaces)))
    {
    }

    /**
     * `domainDefInit`, `setDisks` and the bootstrap strategy: the steps of
     * `CreateDomain` that come before the network interface.
     */
    method Prepare(d: ClientDomain.Domain, input: CreateDomainInput, w: World, arch: string) returns (err: Outcome)
      requires d.def.devices.disks == [] && d.def.qemuArgs == None
      modifies d, virt
      ensures virt.store.domains == old(virt.store.domains) && virt.store.networks == old(virt.store.networks)
      ensures StrategyOf(input) == NoStrategy ==> err.Some?
      ensures err.None? ==> d.def.devices.interfaces == old(d.def.devices.interfaces)
      ensures err.None? ==> Booted(input, arch, old(VolumeOf(input.volumeName)), old(VolumeOf(input.ignKey)), d.def)
    {
      err := AttachDisk(d, input);
      if err.Some? {
        return;
      }
      assert d.def.devices.disks == [ClientDomain.NewDefDisk(0).(source := Some(old(VolumeOf(input.volumeName)).value))];
      assert VolumeOf(input.ignKey) == old(VolumeOf(input.ignKey));
      err := BootAttached(d, input, w, arch, old(VolumeOf(input.volumeName)));
    }

    /** The bootstrap step on a definition that holds only the machine's disk. */
    method BootAttached(d: ClientDomain.Domain, input: CreateDomainInput, w: World, arch: string, ghost root: Result<string>)
      returns (err: Outcome)
      requires root.Ok? && d.def.devices.disks == [ClientDomain.NewDefDisk(0).(source := Some(root.value))]
      requires d.def.qemuArgs == None
      requires d.def.name == input.domainName && d.def.memory == Memory(ToUint64(input.domainMemory), "MiB") &&
               d.def.vcpu == VCPU("", input.domainVcpu) && d.def.cpuMode == "host-passthrough"
      modifies d, virt
      ensures virt.store.domains == old(virt.store.domains) && virt.store.networks == old(virt.store.networks)
      ensures StrategyOf(input) == NoStrategy ==> err.Some?
      ensures err.None? ==> d.def.devices.interfaces == old(d.def.devices.interfaces)
      ensures err.None? ==> Booted(input, arch, root, old(VolumeOf(input.ignKey)), d.def)
    {
      ghost var mid := d.def;
      err := Bootstrap(d, input, w, arch);
      if err.None? {
        BootedOf(input, arch, root, old(VolumeOf(input.ignKey)), mid, d.def);
      }
    }

    /** The definition the bootstrap step leaves, from the one with only the machine's disk, is booted. */
    lemma BootedOf(input: CreateDomainInput, arch: string, root: Result<string>, ign: Result<string>, mid: DomainDef, def: DomainDef)
      requires root.Ok? && mid.devices.disks == [ClientDomain.NewDefDisk(0).(source := Some(root.value))] && mid.qemuArgs == None
      requires mid.name == input.domainName && mid.memory == Memory(ToUint64(input.domainMemory), "MiB") &&
               mid.vcpu == VCPU("", input.domainVcpu) && mid.cpuMode == "host-passthrough"
      requires StrategyOf(input) != NoStrategy
      requires StrategyOf(input) == ByIgnition ==>
                 poolName in virt.pools &&
                 def == mid.(qemuArgs := Some(ClientDomain.FwCfgArgs(virt.KeyIn(poolName, input.ignitionVolumeName))))
      requires StrategyOf(input) == ByIgnKey ==>
                 ign.Ok? &&
                 (ClientDomain.IsS390OrPPC64(arch) ==>
                    def == mid.(devices := mid.devices.(disks := mid.devices.disks + [ClientDomain.IgnitionDisk(ign.value)]))) &&
                 (!ClientDomain.IsS390OrPPC64(arch) ==> def == mid.(qemuArgs := Some(ClientDomain.FwCfgArgs(ign.value))))
      requires StrategyOf(input) == ByCloudInit && !CloudInitAttaches(input.cloudInit.value) ==> def == mid
      requires StrategyOf(input) == ByCloudInit && CloudInitAttaches(input.cloudInit.value) ==>
                 poolName in virt.pools &&
                 def == mid.(devices := mid.devices.(disks := mid.devices.disks +
                               [ClientCloudInit.CdromDisk(virt.KeyIn(poolName, input.cloudInitVolumeName))]))
      ensures Booted(input, arch, root, ign, def)
      ensures def.devices.interfaces == mid.devices.interfaces
    {
    }

    /**
     * The steps of `CreateDomain` between the host skeleton and the define:
     * `Prepare`, then `setNetworkInterfaces` with the host name defaulting to
     * the domain name.
     */
    method Dress(d: ClientDomain.Domain, input: CreateDomainInput, w: World, arch: string, leases: ClientNetwork.Leases)
      returns (err: Outcome)
      requires |w.macBytes| == 6
      requires d.def.devices.disks == [] && d.def.devices.interfaces == [] && d.def.qemuArgs == None
      modifies d, virt, leases
      ensures virt.store.domains == old(virt.store.domains)
      ensures StrategyOf(input) == NoStrategy ==> err.Some?
      ensures err.None? ==> Dressed(input, arch, old(VolumeOf(input.volumeName)), old(VolumeOf(input.ignKey)), d.def)
      ensures err.None? && JoinsDHCP(input, old(virt.store.networks)) ==>
                d.def.devices.interfaces[0].mac.Some? &&
                JoinedAs(input, virt.store.networks, old(leases.items), leases.items, d.def.devices.interfaces[0].mac.value)
      ensures !JoinsDHCP(input, old(virt.store.networks)) ==>
                leases.items == old(leases.items) && virt.store.networks == old(virt.store.networks)
      ensures virt.store.networks - {input.networkInterfaceName} == old(virt.store.networks) - {input.networkInterfaceName}
    {
      err := Prepare(d, input, w, arch);
      if err.Some? {
        return;
      }
      ghost var booted := d.def;
      err := d.SetNetworkInterfaces(virt, leases, w.macBytes, w.macErr, input.hostName,
                                    input.networkInterfaceName, input.networkInterfaceAddress, input.networkCIDR);
      if err.None? {
        BootedIgnoresInterfaces(input, arch, old(VolumeOf(input.volumeName)), old(VolumeOf(input.ignKey)), booted,
                                d.def.devices.interfaces);
      }
    }

    /**
     * `CreateDomain(ctx, input)`: builds the definition for the host, fills
     * it from the input, attaches the disk, the bootstrap configuration and
     * one network interface, and defines, configures and starts the domain.
     * `leases` is the input's `ReservedLeases`; `w` holds what the rest of
     * the world supplies.
     */
    method CreateDomain(input: CreateDomainInput, w: World, leases: ClientNetwork.Leases) returns (err: Outcome)
      requires |w.macBytes| == 6
      modifies virt, leases
      ensures input.domainName == "" ==>
                err == Some(EmptyNameError) && virt.trace == old(virt.trace) && virt.store == old(virt.store)
      ensures StrategyOf(input) == NoStrategy ==> err.Some? && virt.store.domains == old(virt.store.domains)
      ensures virt.store.domains - {input.domainName} == old(virt.store.domains) - {input.domainName}
      ensures err.Some? ==>
                virt.store.domains == old(virt.store.domains) ||
                (input.domainName in virt.store.domains && virt.store.domains[input.domainName].state == Shutoff)
      ensures err.None? ==>
                input.domainName in virt.store.domains &&
                virt.store.domains[input.domainName].state == Running &&
                virt.store.domains[input.domainName].autostart == input.autostart &&
                Dressed(input, virt.caps.hostArch, old(VolumeOf(input.volumeName)), old(VolumeOf(input.ignKey)),
                        virt.store.domains[input.domainName].def)
      ensures err.None? && JoinsDHCP(input, old(virt.store.networks)) ==>
                virt.store.domains[input.domainName].def.devices.interfaces[0].mac.Some? &&
                JoinedAs(input, virt.store.networks, old(leases.items), leases.items,
                         virt.store.domains[input.domainName].def.devices.interfaces[0].mac.value)
      ensures !JoinsDHCP(input, old(virt.store.networks)) ==>
                leases.items == old(leases.items) && virt.store.networks == old(virt.store.networks)
      ensures virt.store.networks - {input.networkInterfaceName} == old(virt.store.networks) - {input.networkInterfaceName}
    {
      if input.domainName == "" {
        return Some(EmptyNameError);
      }
      var skeleton := Skeleton(w.domainTypeEnv);
      if skeleton.Err? {
        return Some(skeleton.error);
      }
      assert VolumeOf(input.volumeName) == old(VolumeOf(input.volumeName));
      assert VolumeOf(input.ignKey) == old(VolumeOf(input.ignKey));
      var d := new ClientDomain.Domain(skeleton.value.0);
      err := Dress(d, input, w, skeleton.value.1, leases);
      if err.Some? {
        return;
      }
      assert d.def.name == input.domainName;
      err := Launch(d.def, input.autostart);
    }

    /**
     * The last steps of `CreateDomain`: define the domain, set its autostart
     * flag, start it, stopping at the first failure.  A domain whose define
     * succeeded stays defined when a later step fails.
     */
    method Launch(def: DomainDef, autostart: bool) returns (err: Outcome)
      modifies virt
      ensures virt.store.domains - {def.name} == old(virt.store.domains) - {def.name}
      ensures var define := Call.DomainDefineXML(def.name);
              var flag := Call.DomainSetAutostart(def.name);
              var start := Call.DomainCreate(def.name);
              virt.trace == old(virt.trace) + [define] +
                            (if define in virt.fails then []
                             else [flag] + (if flag in virt.fails then [] else [start])) &&
              (define in virt.fails ==>
                 err == Some(Wrap("error defining libvirt domain", ErrorOf(virt.fails[define]))) &&
                 virt.store == old(virt.store)) &&
              (define !in virt.fails && flag in virt.fails ==>
                 err == Some(Wrap("error setting Autostart", ErrorOf(virt.fails[flag]))) &&
                 virt.store == old(virt.store).(domains := old(virt.store.domains)[def.name := DomainRecord(def, Shutoff, false)])) &&
              (define !in virt.fails && flag !in virt.fails && start in virt.fails ==>
                 err == Some(Wrap("error creating libvirt domain", ErrorOf(virt.fails[start]))) &&
                 virt.store == old(virt.store).(domains := old(virt.store.domains)[def.name := DomainRecord(def, Shutoff, autostart)])) &&
              (err.None? <==> define !in virt.fails && flag !in virt.fails && start !in virt.fails) &&
              (err.None? ==>
                 virt.store == old(virt.store).(domains := old(virt.store.domains)[def.name := DomainRecord(def, Running, autostart)]))
    {
      err := virt.DomainDefineXML(def);
      if err.Some? {
        return Some(Wrap("error defining libvirt domain", err.value));
      }
      err := virt.DomainSetAutostart(def.name, autostart);
      if err.Some? {
        return Some(Wrap("error setting Autostart", err.value));
      }
      err := virt.DomainCreate(def.name);
      if err.Some? {
        return Some(Wrap("error creating libvirt domain", err.value));
      }
    }

    // ----- DHCP leases -----

    /** `GetDHCPLeasesByNetwork(name)`: the network's leases, or the lookup's error as it is. */
    method GetDHCPLeasesByNetwork(networkName: string) returns (r: Result<seq<Lease>>)
      modifies virt
      ensures virt.store == old(virt.store)
      ensures virt.Effect(Call.NetworkLookupByName(networkName), networkName in virt.store.networks, NoNetwork).Some? ==>
                r == Err(virt.Effect(Call.NetworkLookupByName(networkName), networkName in virt.store.networks, NoNetwork).value)
      ensures networkName in virt.store.networks && Call.NetworkLookupByName(networkName) !in virt.fails ==>
                r == virt.Answer(Call.NetworkGetDhcpLeases(networkName),
                                 Some(if networkName in virt.leases then virt.leases[networkName] else []), NoNetwork)
    {
      var e := virt.NetworkLookupByName(networkName);
      if e.Some? {
        return Err(e.value);
      }
      r := virt.NetworkGetDhcpLeases(networkName);
    }

    /**
     * `LookupDomainHostnameByDHCPLease(ip, networkName)`: the first host
     * name of the first lease of the network for `ip`.
     */
    method LookupDomainHostnameByDHCPLease(ip: string, networkName: string) returns (r: Result<string>)
      modifies virt
      ensures virt.store == old(virt.store)
      ensures networkName !in virt.store.networks ==> r.Err?
      ensures networkName in virt.store.networks && Call.NetworkLookupByName(networkName) !in virt.fails &&
              Call.NetworkGetDhcpLeases(networkName) !in virt.fails ==>
                r == LeaseHostname(if networkName in virt.leases then virt.leases[networkName] else [], ip)
    {
      var leases := GetDHCPLeasesByNetwork(networkName);
      if leases.Err? {
        return Err(leases.error);
      }
      var all := leases.value;
      var i := 0;
      while i < |all|
        invariant 0 <= i <= |all|
        invariant forall j :: 0 <= j < i ==> all[j].ipaddr != ip
      {
        if all[i].ipaddr == ip {
          LeaseHostnameFirst(all[..i], all[i], all[i + 1..], ip);
          assert all == all[..i] + [all[i]] + all[i + 1..];
          if all[i].hostnames == [] {
            return Err(Panic("index out of range [0] with length 0"));
          }
          return Ok(all[i].hostnames[0]);
        }
        i := i + 1;
      }
      return Err(NoLeaseError(ip));
    }
  }
}
