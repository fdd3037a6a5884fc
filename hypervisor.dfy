/**
 * The libvirt daemon as the provider sees it: an abstract store of domains,
 * storage volumes and networks, and the calls the provider makes on it.
 *
 * Every call is recorded in `trace`.  Whether a call fails is fixed by the
 * constant map `fails`: a call that is a key of `fails` fails with that
 * libvirt error every time it is made, any other call succeeds (or reports
 * "not found" when its object is absent).  Retrying a failing call therefore
 * never helps, and a call cannot answer differently on a second attempt.
 */
module Hypervisor {
  import opened Wrappers
  import opened LibvirtXml

  /** One call into libvirt, with the object it targets. */
  datatype Call =
    | GetCapabilities
    | GetURI
    | DomainLookupByName(domain: string)
    | DomainGetState(domain: string)
    | DomainDestroy(domain: string)
    | DomainUndefineFlags(domain: string)
    | DomainUndefine(domain: string)
    | DomainDefineXML(domain: string)
    | DomainSetAutostart(domain: string)
    | DomainCreate(domain: string)
    | DomainGetUUID(domain: string)
    | DomainInterfaceAddresses(domain: string)
    | PoolLookupByName(pool: string)
    | PoolLookupByVolume(key: string)
    | PoolRefresh(pool: string)
    | VolLookupByName(pool: string, name: string)
    | VolLookupByKey(key: string)
    | VolLookupByPath(path: string)
    | VolGetPath(key: string)
    | VolGetName(key: string)
    | VolGetKey(key: string)
    | VolGetInfo(key: string)
    | VolGetXMLDesc(key: string)
    | VolCreateXML(pool: string, name: string)
    | VolDelete(key: string)
    | VolUpload(key: string)
    | StreamNew
    | StreamSend(key: string)
    | StreamFinish(key: string)
    | StreamAbort(key: string)
    | NetworkLookupByName(network: string)
    | NetworkGetName(network: string)
    | NetworkGetXMLDesc(network: string)
    | NetworkUpdateModify(network: string)
    | NetworkUpdateAdd(network: string)
    | NetworkGetDhcpLeases(network: string)
    | NetworkDefineXML(network: string)
    | NetworkCreate(network: string)
    | NetworkGetUUID(network: string)
    | NetworkSetAutostart(network: string)
    | NetworkIsActive(network: string)
    | NetworkDestroy(network: string)
    | NetworkUndefine(network: string)

  /** A defined domain: its definition, its `virDomainState`, its autostart flag. */
  datatype DomainRecord = DomainRecord(def: DomainDef, state: int, autostart: bool)

  /**
   * A storage volume, stored under its key (which is also its path): the pool
   * it lives in, its definition, its reported allocation and the bytes
   * uploaded into it.
   */
  datatype Volume = Volume(pool: string, def: VolumeDef, allocation: uint64, content: seq<byte>)

  /** A defined network: its definition, its static DHCP hosts, whether it is active and autostarted. */
  datatype NetworkRecord = NetworkRecord(def: NetworkDef, hosts: seq<DHCPHost>, active: bool, autostart: bool)

  /** Everything a call can change. */
  datatype Store = Store(domains: map<string, DomainRecord>, volumes: map<string, Volume>,
                         networks: map<string, NetworkRecord>)

  /** A `libvirt.Error` built from a failure entry. */
  function ErrorOf(e: (ErrorCode, ErrorDomain)): (r: Error)
    ensures r.Virt?
  {
    Virt(e.0, e.1)
  }

  class Connect {
    var store: Store
    var trace: seq<Call>

    /** The calls that fail, and the libvirt error each fails with. */
    const fails: map<Call, (ErrorCode, ErrorDomain)>
    /** Storage pools: name to the directory that prefixes the keys of their volumes. */
    const pools: map<string, string>
    /** The host capabilities `GetCapabilities` reports. */
    const caps: Caps
    /** The connection URI. */
    const uri: string
    /** The DHCP leases of each network. */
    const leases: map<string, seq<Lease>>
    /** The interface addresses of each domain, one sequence per interface. */
    const addresses: map<string, seq<seq<string>>>

    constructor (store0: Store, fails0: map<Call, (ErrorCode, ErrorDomain)>, pools0: map<string, string>,
                 caps0: Caps, uri0: string, leases0: map<string, seq<Lease>>,
                 addresses0: map<string, seq<seq<string>>>)
      ensures store == store0 && trace == [] && fails == fails0 && pools == pools0
      ensures caps == caps0 && uri == uri0 && leases == leases0 && addresses == addresses0
    {
      store := store0;
      trace := [];
      fails := fails0;
      pools := pools0;
      caps := caps0;
      uri := uri0;
      leases := leases0;
      addresses := addresses0;
    }

    /** The answer to a call that reads an object: its failure, not-found, or the object. */
    function Answer<T>(c: Call, found: Option<T>, missing: ErrorCode): (r: Result<T>)
      ensures c in fails ==> r == Err(ErrorOf(fails[c]))
      ensures c !in fails && found.None? ==> r == Err(Virt(missing, FromOther))
      ensures c !in fails && found.Some? ==> r == Ok(found.value)
    {
      if c in fails then Err(ErrorOf(fails[c]))
      else if found.None? then Err(Virt(missing, FromOther))
      else Ok(found.value)
    }

    /** The outcome of a call that acts on an object. */
    function Effect(c: Call, present: bool, missing: ErrorCode): (r: Outcome)
      ensures c in fails ==> r == Some(ErrorOf(fails[c]))
      ensures c !in fails ==> (r == None <==> present)
    {
      if c in fails then Some(ErrorOf(fails[c]))
      else if !present then Some(Virt(missing, FromOther))
      else None
    }

    /** The key (and path) a volume named `name` gets in pool `pool`. */
    function KeyIn(pool: string, name: string): (k: string)
      requires pool in pools
      ensures k == pools[pool] + name
    {
      pools[pool] + name
    }

    // ----- host -----

    method GetCapabilities() returns (r: Result<Caps>)
      modifies this
      ensures trace == old(trace) + [Call.GetCapabilities] && store == old(store)
      ensures r == Answer(Call.GetCapabilities, Some(caps), OtherCode)
    {
      trace := trace + [Call.GetCapabilities];
      r := Answer(Call.GetCapabilities, Some(caps), OtherCode);
    }

    method GetURI() returns (r: Result<string>)
      modifies this
      ensures trace == old(trace) + [Call.GetURI] && store == old(store)
      ensures r == Answer(Call.GetURI, Some(uri), OtherCode)
    {
      trace := trace + [Call.GetURI];
      r := Answer(Call.GetURI, Some(uri), OtherCode);
    }

    // ----- domains -----

    method DomainLookupByName(name: string) returns (r: Result<DomainRecord>)
      modifies this
      ensures trace == old(trace) + [Call.DomainLookupByName(name)] && store == old(store)
      ensures r == Answer(Call.DomainLookupByName(name),
                          if name in store.domains then Some(store.domains[name]) else None, NoDomain)
    {
      trace := trace + [Call.DomainLookupByName(name)];
      r := Answer(Call.DomainLookupByName(name),
                  if name in store.domains then Some(store.domains[name]) else None, NoDomain);
    }

    method DomainGetState(name: string) returns (r: Result<int>)
      modifies this
      ensures trace == old(trace) + [Call.DomainGetState(name)] && store == old(store)
      ensures r == Answer(Call.DomainGetState(name),
                          if name in store.domains then Some(store.domains[name].state) else None, NoDomain)
    {
      trace := trace + [Call.DomainGetState(name)];
      r := Answer(Call.DomainGetState(name),
                  if name in store.domains then Some(store.domains[name].state) else None, NoDomain);
    }

    method DomainGetUUID(name: string) returns (r: Result<string>)
      modifies this
      ensures trace == old(trace) + [Call.DomainGetUUID(name)] && store == old(store)
      ensures r == Answer(Call.DomainGetUUID(name), if name in store.domains then Some(name) else None, NoDomain)
    {
      trace := trace + [Call.DomainGetUUID(name)];
      r := Answer(Call.DomainGetUUID(name), if name in store.domains then Some(name) else None, NoDomain);
    }

    /** Destroying a domain stops it: its state becomes shut off. */
    method DomainDestroy(name: string) returns (err: Outcome)
      modifies this
      ensures trace == old(trace) + [Call.DomainDestroy(name)]
      ensures err == Effect(Call.DomainDestroy(name), name in old(store.domains), NoDomain)
      ensures store == if err.Some? then old(store)
                       else old(store).(domains := old(store.domains)[name := old(store.domains)[name].(state := Shutoff)])
    {
      trace := trace + [Call.DomainDestroy(name)];
      err := Effect(Call.DomainDestroy(name), name in store.domains, NoDomain);
      if err.None? {
        store := store.(domains := store.domains[name := store.domains[name].(state := Shutoff)]);
      }
    }

    /** Undefining with the NVRAM flag removes the definition. */
    method DomainUndefineFlags(name: string) returns (err: Outcome)
      modifies this
      ensures trace == old(trace) + [Call.DomainUndefineFlags(name)]
      ensures err == Effect(Call.DomainUndefineFlags(name), name in old(store.domains), NoDomain)
      ensures store == if err.Some? then old(store) else old(store).(domains := old(store.domains) - {name})
    {
      trace := trace + [Call.DomainUndefineFlags(name)];
      err := Effect(Call.DomainUndefineFlags(name), name in store.domains, NoDomain);
      if err.None? {
        store := store.(domains := store.domains - {name});
      }
    }

    method DomainUndefine(name: string) returns (err: Outcome)
      modifies this
      ensures trace == old(trace) + [Call.DomainUndefine(name)]
      ensures err == Effect(Call.DomainUndefine(name), name in old(store.domains), NoDomain)
      ensures store == if err.Some? then old(store) else old(store).(domains := old(store.domains) - {name})
    {
      trace := trace + [Call.DomainUndefine(name)];
      err := Effect(Call.DomainUndefine(name), name in store.domains, NoDomain);
      if err.None? {
        store := store.(domains := store.domains - {name});
      }
    }

    /** Defining a domain stores its definition, shut off and not autostarted (replacing one of that name). */
    method DomainDefineXML(def: DomainDef) returns (err: Outcome)
      modifies this
      ensures trace == old(trace) + [Call.DomainDefineXML(def.name)]
      ensures err == Effect(Call.DomainDefineXML(def.name), true, OtherCode)
      ensures store == if err.Some? then old(store)
                       else old(store).(domains := old(store.domains)[def.name := DomainRecord(def, Shutoff, false)])
    {
      trace := trace + [Call.DomainDefineXML(def.name)];
      err := Effect(Call.DomainDefineXML(def.name), true, OtherCode);
      if err.None? {
        store := store.(domains := store.domains[def.name := DomainRecord(def, Shutoff, false)]);
      }
    }

    method DomainSetAutostart(name: string, on: bool) returns (err: Outcome)
      modifies this
      ensures trace == old(trace) + [Call.DomainSetAutostart(name)]
      ensures err == Effect(Call.DomainSetAutostart(name), name in old(store.domains), NoDomain)
      ensures store == if err.Some? then old(store)
                       else old(store).(domains := old(store.domains)[name := old(store.domains)[name].(autostart := on)])
    {
      trace := trace + [Call.DomainSetAutostart(name)];
      err := Effect(Call.DomainSetAutostart(name), name in store.domains, NoDomain);
      if err.None? {
        store := store.(domains := store.domains[name := store.domains[name].(autostart := on)]);
      }
    }

    /** Starting a domain makes it running. */
    method DomainCreate(name: string) returns (err: Outcome)
      modifies this
      ensures trace == old(trace) + [Call.DomainCreate(name)]
      ensures err == Effect(Call.DomainCreate(name), name in old(store.domains), NoDomain)
      ensures store == if err.Some? then old(store)
                       else old(store).(domains := old(store.domains)[name := old(store.domains)[name].(state := Running)])
    {
      trace := trace + [Call.DomainCreate(name)];
      err := Effect(Call.DomainCreate(name), name in store.domains, NoDomain);
      if err.None? {
        store := store.(domains := store.domains[name := store.domains[name].(state := Running)]);
      }
    }

    /** The addresses of a domain's interfaces from the DHCP leases. */
    method DomainInterfaceAddresses(name: string) returns (r: Result<seq<seq<string>>>)
      modifies this
      ensures trace == old(trace) + [Call.DomainInterfaceAddresses(name)] && store == old(store)
      ensures r == Answer(Call.DomainInterfaceAddresses(name),
                          if name !in store.domains then None
                          else if name in addresses then Some(addresses[name]) else Some([]), NoDomain)
    {
      trace := trace + [Call.DomainInterfaceAddresses(name)];
      r := Answer(Call.DomainInterfaceAddresses(name),
                  if name !in store.domains then None
                  else if name in addresses then Some(addresses[name]) else Some([]), NoDomain);
    }

    // ----- storage pools and volumes -----

    method PoolLookupByName(pool: string) returns (err: Outcome)
      modifies this
      ensures trace == old(trace) + [Call.PoolLookupByName(pool)] && store == old(store)
      ensures err == Effect(Call.PoolLookupByName(pool), pool in pools, NoStoragePool)
    {
      trace := trace + [Call.PoolLookupByName(pool)];
      err := Effect(Call.PoolLookupByName(pool), pool in pools, NoStoragePool);
    }

    method PoolLookupByVolume(key: string) returns (r: Result<string>)
      modifies this
      ensures trace == old(trace) + [Call.PoolLookupByVolume(key)] && store == old(store)
      ensures r == Answer(Call.PoolLookupByVolume(key),
                          if key in store.volumes then Some(store.volumes[key].pool) else None, NoStorageVol)
    {
      trace := trace + [Call.PoolLookupByVolume(key)];
      r := Answer(Call.PoolLookupByVolume(key),
                  if key in store.volumes then Some(store.volumes[key].pool) else None, NoStorageVol);
    }

    method PoolRefresh(pool: string) returns (err: Outcome)
      modifies this
      ensures trace == old(trace) + [Call.PoolRefresh(pool)] && store == old(store)
      ensures err == Effect(Call.PoolRefresh(pool), pool in pools, NoStoragePool)
    {
      trace := trace + [Call.PoolRefresh(pool)];
      err := Effect(Call.PoolRefresh(pool), pool in pools, NoStoragePool);
    }

    /** The volume named `name` in `pool`: the one stored under the key `pool`'s directory + `name`. */
    function VolumeNamed(pool: string, name: string): (k: Option<string>)
      reads this`store
      ensures k.Some? ==> pool in pools && k.value == KeyIn(pool, name) && k.value in store.volumes &&
                          store.volumes[k.value].pool == pool
    {
      if pool in pools && KeyIn(pool, name) in store.volumes && store.volumes[KeyIn(pool, name)].pool == pool
      then Some(KeyIn(pool, name)) else None
    }

    /** Looks a volume up by name in a pool; the result is its key. */
    method VolLookupByName(pool: string, name: string) returns (r: Result<string>)
      modifies this
      ensures trace == old(trace) + [Call.VolLookupByName(pool, name)] && store == old(store)
      ensures r == Answer(Call.VolLookupByName(pool, name), VolumeNamed(pool, name), NoStorageVol)
    {
      trace := trace + [Call.VolLookupByName(pool, name)];
      r := Answer(Call.VolLookupByName(pool, name), VolumeNamed(pool, name), NoStorageVol);
    }

    method VolLookupByKey(key: string) returns (r: Result<string>)
      modifies this
      ensures trace == old(trace) + [Call.VolLookupByKey(key)] && store == old(store)
      ensures r == Answer(Call.VolLookupByKey(key), if key in store.volumes then Some(key) else None, NoStorageVol)
    {
      trace := trace + [Call.VolLookupByKey(key)];
      r := Answer(Call.VolLookupByKey(key), if key in store.volumes then Some(key) else None, NoStorageVol);
    }

    /** Looks a volume up by its path, which in this model is its key. */
    method VolLookupByPath(path: string) returns (r: Result<string>)
      modifies this
      ensures trace == old(trace) + [Call.VolLookupByPath(path)] && store == old(store)
      ensures r == Answer(Call.VolLookupByPath(path), if path in store.volumes then Some(path) else None, NoStorageVol)
    {
      trace := trace + [Call.VolLookupByPath(path)];
      r := Answer(Call.VolLookupByPath(path), if path in store.volumes then Some(path) else None, NoStorageVol);
    }

    /** A volume's path, which in this model is its key. */
    method VolGetPath(key: string) returns (r: Result<string>)
      modifies this
      ensures trace == old(trace) + [Call.VolGetPath(key)] && store == old(store)
      ensures r == Answer(Call.VolGetPath(key), if key in store.volumes then Some(key) else None, NoStorageVol)
    {
      trace := trace + [Call.VolGetPath(key)];
      r := Answer(Call.VolGetPath(key), if key in store.volumes then Some(key) else None, NoStorageVol);
    }

    method VolGetKey(key: string) returns (r: Result<string>)
      modifies this
      ensures trace == old(trace) + [Call.VolGetKey(key)] && store == old(store)
      ensures r == Answer(Call.VolGetKey(key), if key in store.volumes then Some(key) else None, NoStorageVol)
    {
      trace := trace + [Call.VolGetKey(key)];
      r := Answer(Call.VolGetKey(key), if key in store.volumes then Some(key) else None, NoStorageVol);
    }

    method VolGetName(key: string) returns (r: Result<string>)
      modifies this
      ensures trace == old(trace) + [Call.VolGetName(key)] && store == old(store)
      ensures r == Answer(Call.VolGetName(key),
                          if key in store.volumes then Some(store.volumes[key].def.name) else None, NoStorageVol)
    {
      trace := trace + [Call.VolGetName(key)];
      r := Answer(Call.VolGetName(key),
                  if key in store.volumes then Some(store.volumes[key].def.name) else None, NoStorageVol);
    }

    /** `StorageVolGetInfo`: the volume's capacity and allocation. */
    method VolGetInfo(key: string) returns (r: Result<(uint64, uint64)>)
      modifies this
      ensures trace == old(trace) + [Call.VolGetInfo(key)] && store == old(store)
      ensures r == Answer(Call.VolGetInfo(key),
                          if key in store.volumes
                          then Some((store.volumes[key].def.capacity.value, store.volumes[key].allocation))
                          else None, NoStorageVol)
    {
      trace := trace + [Call.VolGetInfo(key)];
      r := Answer(Call.VolGetInfo(key),
                  if key in store.volumes
                  then Some((store.volumes[key].def.capacity.value, store.volumes[key].allocation))
                  else None, NoStorageVol);
    }

    /** A volume's XML description, read back as its definition. */
    method VolGetXMLDesc(key: string) returns (r: Result<VolumeDef>)
      modifies this
      ensures trace == old(trace) + [Call.VolGetXMLDesc(key)] && store == old(store)
      ensures r == Answer(Call.VolGetXMLDesc(key),
                          if key in store.volumes then Some(store.volumes[key].def) else None, NoStorageVol)
    {
      trace := trace + [Call.VolGetXMLDesc(key)];
      r := Answer(Call.VolGetXMLDesc(key),
                  if key in store.volumes then Some(store.volumes[key].def) else None, NoStorageVol);
    }

    /**
     * Creates a volume from its definition in a pool; the result is its key.
     * An unknown pool or a name already taken in the pool fails.
     */
    method VolCreateXML(pool: string, def: VolumeDef) returns (r: Result<string>)
      modifies this
      ensures trace == old(trace) + [Call.VolCreateXML(pool, def.name)]
      ensures r == Answer(Call.VolCreateXML(pool, def.name),
                          if pool in pools && KeyIn(pool, def.name) !in old(store.volumes)
                          then Some(KeyIn(pool, def.name)) else None, OperationInvalid)
      ensures store == if r.Err? then old(store)
                       else old(store).(volumes := old(store.volumes)[r.value := Volume(pool, def, 0, [])])
    {
      trace := trace + [Call.VolCreateXML(pool, def.name)];
      r := Answer(Call.VolCreateXML(pool, def.name),
                  if pool in pools && KeyIn(pool, def.name) !in store.volumes
                  then Some(KeyIn(pool, def.name)) else None, OperationInvalid);
      if r.Ok? {
        store := store.(volumes := store.volumes[r.value := Volume(pool, def, 0, [])]);
      }
    }

    method VolDelete(key: string) returns (err: Outcome)
      modifies this
      ensures trace == old(trace) + [Call.VolDelete(key)]
      ensures err == Effect(Call.VolDelete(key), key in old(store.volumes), NoStorageVol)
      ensures store == if err.Some? then old(store) else old(store).(volumes := old(store.volumes) - {key})
    {
      trace := trace + [Call.VolDelete(key)];
      err := Effect(Call.VolDelete(key), key in store.volumes, NoStorageVol);
      if err.None? {
        store := store.(volumes := store.volumes - {key});
      }
    }

    /** `NewStream`: opens a stream on the connection. */
    method StreamNew() returns (err: Outcome)
      modifies this
      ensures trace == old(trace) + [Call.StreamNew] && store == old(store)
      ensures err == Effect(Call.StreamNew, true, OtherCode)
    {
      trace := trace + [Call.StreamNew];
      err := Effect(Call.StreamNew, true, OtherCode);
    }

    /** `StorageVolUpload`: points the stream at a volume. */
    method VolUpload(key: string) returns (err: Outcome)
      modifies this
      ensures trace == old(trace) + [Call.VolUpload(key)] && store == old(store)
      ensures err == Effect(Call.VolUpload(key), key in store.volumes, NoStorageVol)
    {
      trace := trace + [Call.VolUpload(key)];
      err := Effect(Call.VolUpload(key), key in store.volumes, NoStorageVol);
    }

    /** Copies `data` into the stream; the result is the number of bytes copied. */
    method StreamSend(key: string, data: seq<byte>) returns (r: Result<nat>)
      modifies this
      ensures trace == old(trace) + [Call.StreamSend(key)] && store == old(store)
      ensures r == Answer(Call.StreamSend(key), if key in store.volumes then Some(|data|) else None, NoStorageVol)
    {
      trace := trace + [Call.StreamSend(key)];
      r := Answer(Call.StreamSend(key), if key in store.volumes then Some(|data|) else None, NoStorageVol);
    }

    /** Finishing the stream commits the bytes sent as the volume's content. */
    method StreamFinish(key: string, data: seq<byte>) returns (err: Outcome)
      modifies this
      ensures trace == old(trace) + [Call.StreamFinish(key)]
      ensures err == Effect(Call.StreamFinish(key), key in old(store.volumes), NoStorageVol)
      ensures store == if err.Some? then old(store)
                       else old(store).(volumes := old(store.volumes)[key := old(store.volumes)[key].(content := data)])
    {
      trace := trace + [Call.StreamFinish(key)];
      err := Effect(Call.StreamFinish(key), key in store.volumes, NoStorageVol);
      if err.None? {
        store := store.(volumes := store.volumes[key := store.volumes[key].(content := data)]);
      }
    }

    /** Aborting the stream discards what was sent. */
    method StreamAbort(key: string) returns (err: Outcome)
      modifies this
      ensures trace == old(trace) + [Call.StreamAbort(key)] && store == old(store)
      ensures err == Effect(Call.StreamAbort(key), true, OtherCode)
    {
      trace := trace + [Call.StreamAbort(key)];
      err := Effect(Call.StreamAbort(key), true, OtherCode);
    }

    // ----- networks -----

    method NetworkLookupByName(name: string) returns (err: Outcome)
      modifies this
      ensures trace == old(trace) + [Call.NetworkLookupByName(name)] && store == old(store)
      ensures err == Effect(Call.NetworkLookupByName(name), name in store.networks, NoNetwork)
    {
      trace := trace + [Call.NetworkLookupByName(name)];
      err := Effect(Call.NetworkLookupByName(name), name in store.networks, NoNetwork);
    }

    method NetworkGetName(name: string) returns (r: Result<string>)
      modifies this
      ensures trace == old(trace) + [Call.NetworkGetName(name)] && store == old(store)
      ensures r == Answer(Call.NetworkGetName(name), if name in store.networks then Some(name) else None, NoNetwork)
    {
      trace := trace + [Call.NetworkGetName(name)];
      r := Answer(Call.NetworkGetName(name), if name in store.networks then Some(name) else None, NoNetwork);
    }

    method NetworkGetXMLDesc(name: string) returns (r: Result<NetworkDef>)
      modifies this
      ensures trace == old(trace) + [Call.NetworkGetXMLDesc(name)] && store == old(store)
      ensures r == Answer(Call.NetworkGetXMLDesc(name),
                          if name in store.networks then Some(store.networks[name].def) else None, NoNetwork)
    {
      trace := trace + [Call.NetworkGetXMLDesc(name)];
      r := Answer(Call.NetworkGetXMLDesc(name),
                  if name in store.networks then Some(store.networks[name].def) else None, NoNetwork);
    }

    /** The index of the static host with MAC `mac`, if there is one. */
    function HostWithMac(hosts: seq<DHCPHost>, mac: string): (i: Option<nat>)
      ensures i.Some? ==> i.value < |hosts| && hosts[i.value].mac == mac
      ensures i.None? ==> forall j :: 0 <= j < |hosts| ==> hosts[j].mac != mac
    {
      if |hosts| == 0 then None
      else if hosts[0].mac == mac then Some(0)
      else match HostWithMac(hosts[1..], mac)
           case None => None
           case Some(j) => Some(j + 1)
    }

    /**
     * The answer of `NetworkUpdate` with the modify command on the DHCP host
     * section: with no static host of that MAC, libvirt answers
     * ERR_OPERATION_INVALID from the network driver.
     */
    function ModifyAnswer(name: string, mac: string): (err: Outcome)
      reads this`store
      ensures Call.NetworkUpdateModify(name) in fails ==> err == Some(ErrorOf(fails[Call.NetworkUpdateModify(name)]))
      ensures Call.NetworkUpdateModify(name) !in fails ==>
                (err == None <==> name in store.networks && HostWithMac(store.networks[name].hosts, mac).Some?)
    {
      if Call.NetworkUpdateModify(name) in fails then Some(ErrorOf(fails[Call.NetworkUpdateModify(name)]))
      else if name !in store.networks then Some(Virt(NoNetwork, FromOther))
      else if HostWithMac(store.networks[name].hosts, mac).None? then Some(Virt(OperationInvalid, FromNetwork))
      else None
    }

    /** Modifying replaces the static host with the same MAC. */
    method NetworkUpdateModify(name: string, host: DHCPHost) returns (err: Outcome)
      modifies this
      ensures trace == old(trace) + [Call.NetworkUpdateModify(name)]
      ensures err == old(ModifyAnswer(name, host.mac))
      ensures err.Some? ==> store == old(store)
      ensures err.None? ==>
                store == old(store).(networks := old(store.networks)[name := old(store.networks)[name].(
                           hosts := old(store.networks)[name].hosts[HostWithMac(old(store.networks)[name].hosts, host.mac).value := host])])
    {
      trace := trace + [Call.NetworkUpdateModify(name)];
      err := ModifyAnswer(name, host.mac);
      if err.None? {
        var n := store.networks[name];
        store := store.(networks := store.networks[name := n.(hosts := n.hosts[HostWithMac(n.hosts, host.mac).value := host])]);
      }
    }

    /** `NetworkUpdate` with the add-last command: the host is appended. */
    method NetworkUpdateAdd(name: string, host: DHCPHost) returns (err: Outcome)
      modifies this
      ensures trace == old(trace) + [Call.NetworkUpdateAdd(name)]
      ensures err == Effect(Call.NetworkUpdateAdd(name), name in old(store.networks), NoNetwork)
      ensures store == if err.Some? then old(store)
                       else old(store).(networks := old(store.networks)[name := old(store.networks)[name].(
                              hosts := old(store.networks)[name].hosts + [host])])
    {
      trace := trace + [Call.NetworkUpdateAdd(name)];
      err := Effect(Call.NetworkUpdateAdd(name), name in store.networks, NoNetwork);
      if err.None? {
        store := store.(networks := store.networks[name := store.networks[name].(hosts := store.networks[name].hosts + [host])]);
      }
    }

    method NetworkGetDhcpLeases(name: string) returns (r: Result<seq<Lease>>)
      modifies this
      ensures trace == old(trace) + [Call.NetworkGetDhcpLeases(name)] && store == old(store)
      ensures r == Answer(Call.NetworkGetDhcpLeases(name),
                          if name !in store.networks then None
                          else if name in leases then Some(leases[name]) else Some([]), NoNetwork)
    {
      trace := trace + [Call.NetworkGetDhcpLeases(name)];
      r := Answer(Call.NetworkGetDhcpLeases(name),
                  if name !in store.networks then None
                  else if name in leases then Some(leases[name]) else Some([]), NoNetwork);
    }

    /** Defining a network stores it inactive, without static hosts (replacing one of that name). */
    method NetworkDefineXML(def: NetworkDef) returns (err: Outcome)
      modifies this
      ensures trace == old(trace) + [Call.NetworkDefineXML(def.name)]
      ensures err == Effect(Call.NetworkDefineXML(def.name), true, OtherCode)
      ensures store == if err.Some? then old(store)
                       else old(store).(networks := old(store.networks)[def.name := NetworkRecord(def, [], false, false)])
    {
      trace := trace + [Call.NetworkDefineXML(def.name)];
      err := Effect(Call.NetworkDefineXML(def.name), true, OtherCode);
      if err.None? {
        store := store.(networks := store.networks[def.name := NetworkRecord(def, [], false, false)]);
      }
    }

    /** Starting a network makes it active. */
    method NetworkCreate(name: string) returns (err: Outcome)
      modifies this
      ensures trace == old(trace) + [Call.NetworkCreate(name)]
      ensures err == Effect(Call.NetworkCreate(name), name in old(store.networks), NoNetwork)
      ensures store == if err.Some? then old(store)
                       else old(store).(networks := old(store.networks)[name := old(store.networks)[name].(active := true)])
    {
      trace := trace + [Call.NetworkCreate(name)];
      err := Effect(Call.NetworkCreate(name), name in store.networks, NoNetwork);
      if err.None? {
        store := store.(networks := store.networks[name := store.networks[name].(active := true)]);
      }
    }

    method NetworkGetUUID(name: string) returns (r: Result<string>)
      modifies this
      ensures trace == old(trace) + [Call.NetworkGetUUID(name)] && store == old(store)
      ensures r == Answer(Call.NetworkGetUUID(name), if name in store.networks then Some(name) else None, NoNetwork)
    {
      trace := trace + [Call.NetworkGetUUID(name)];
      r := Answer(Call.NetworkGetUUID(name), if name in store.networks then Some(name) else None, NoNetwork);
    }

    method NetworkSetAutostart(name: string, on: bool) returns (err: Outcome)
      modifies this
      ensures trace == old(trace) + [Call.NetworkSetAutostart(name)]
      ensures err == Effect(Call.NetworkSetAutostart(name), name in old(store.networks), NoNetwork)
      ensures store == if err.Some? then old(store)
                       else old(store).(networks := old(store.networks)[name := old(store.networks)[name].(autostart := on)])
    {
      trace := trace + [Call.NetworkSetAutostart(name)];
      err := Effect(Call.NetworkSetAutostart(name), name in store.networks, NoNetwork);
      if err.None? {
        store := store.(networks := store.networks[name := store.networks[name].(autostart := on)]);
      }
    }

    method NetworkIsActive(name: string) returns (r: Result<bool>)
      modifies this
      ensures trace == old(trace) + [Call.NetworkIsActive(name)] && store == old(store)
      ensures r == Answer(Call.NetworkIsActive(name),
                          if name in store.networks then Some(store.networks[name].active) else None, NoNetwork)
    {
      trace := trace + [Call.NetworkIsActive(name)];
      r := Answer(Call.NetworkIsActive(name),
                  if name in store.networks then Some(store.networks[name].active) else None, NoNetwork);
    }

    /** Destroying a network stops it; libvirt refuses to destroy an inactive one. */
    method NetworkDestroy(name: string) returns (err: Outcome)
      modifies this
      ensures trace == old(trace) + [Call.NetworkDestroy(name)]
      ensures err == Effect(Call.NetworkDestroy(name),
                            name in old(store.networks) && old(store.networks)[name].active, OperationInvalid)
      ensures store == if err.Some? then old(store)
                       else old(store).(networks := old(store.networks)[name := old(store.networks)[name].(active := false)])
    {
      trace := trace + [Call.NetworkDestroy(name)];
      err := Effect(Call.NetworkDestroy(name), name in store.networks && store.networks[name].active, OperationInvalid);
      if err.None? {
        store := store.(networks := store.networks[name := store.networks[name].(active := false)]);
      }
    }

    method NetworkUndefine(name: string) returns (err: Outcome)
      modifies this
      ensures trace == old(trace) + [Call.NetworkUndefine(name)]
      ensures err == Effect(Call.NetworkUndefine(name), name in old(store.networks), NoNetwork)
      ensures store == if err.Some? then old(store) else old(store).(networks := old(store.networks) - {name})
    {
      trace := trace + [Call.NetworkUndefine(name)];
      err := Effect(Call.NetworkUndefine(name), name in store.networks, NoNetwork);
      if err.None? {
        store := store.(networks := store.networks - {name});
      }
    }
  }
}
