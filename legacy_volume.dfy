// The volume helpers of the first machine-actuator generation:
// `getVolumeFromPool`, `CreateVolume` and `DeleteVolume`, which address a
// volume by its name inside a named pool.  The pure helpers of that file
// (`newDefVolume`, `newDefBackingStoreFromLibvirt`, `waitForSuccess`,
// `timeFromEpoch`) are the same code as the later generations' and are
// modelled once, in `UtilsVolume` and `ClientVolume`.

module LegacyVolume {
  import opened Wrappers
  import opened Strs
  import opened LibvirtXml
  import opened Hypervisor
  import ClientVolume
  import ClientClient
  import UtilsClient

  /** The panic of a method call through a nil pointer. */
  const NilDeref := Panic("invalid memory address or nil pointer dereference")

  /**
   * What `getVolumeFromPool(name, pool)` answers: the key of the volume
   * called `name` in `pool`, or the error of the pool lookup or of the
   * volume lookup, each with its context.
   */
  function VolumeFromPool(c: Connect, name: string, pool: string): (r: Result<string>)
    reads c`store
    ensures r.Ok? <==> UtilsClient.PoolFound(c, pool) && UtilsClient.Taken(c, pool, name)
    ensures r.Ok? ==> pool in c.pools && r.value == c.KeyIn(pool, name) && r.value in c.store.volumes &&
                      c.store.volumes[r.value].pool == pool
    ensures !UtilsClient.PoolFound(c, pool) ==>
              r.Err? && r.error.Wrap? && r.error.context == "can't find storage pool " + Quote(pool)
    ensures UtilsClient.PoolFound(c, pool) && r.Err? ==>
              r.error.Wrap? && r.error.context == "can't retrieve volume " + Quote(name)
  {
    var e := c.Effect(Call.PoolLookupByName(pool), pool in c.pools, NoStoragePool);
    if e.Some? then Err(Wrap("can't find storage pool " + Quote(pool), e.value))
    else match c.Answer(Call.VolLookupByName(pool, name), c.VolumeNamed(pool, name), NoStorageVol)
      case Ok(key) => Ok(key)
      case Err(v) => Err(Wrap("can't retrieve volume " + Quote(name), v))
  }

  /**
   * `getVolumeFromPool(name, pool)`: the pool is looked up and refreshed
   * (the refresh's outcome is ignored), then the volume looked up by name.
   */
  method GetVolumeFromPool(c: Connect, name: string, pool: string) returns (r: Result<string>)
    modifies c
    ensures c.store == old(c.store)
    ensures r == VolumeFromPool(c, name, pool)
    ensures !UtilsClient.PoolFound(c, pool) ==> c.trace == old(c.trace) + [Call.PoolLookupByName(pool)]
    ensures UtilsClient.PoolFound(c, pool) ==>
              c.trace == old(c.trace) + [Call.PoolLookupByName(pool)] + [Call.PoolRefresh(pool)] +
                         [Call.VolLookupByName(pool, name)]
  {
    var e := c.PoolLookupByName(pool);
    if e.Some? {
      return Err(Wrap("can't find storage pool " + Quote(pool), e.value));
    }
    var refresh := c.PoolRefresh(pool);
    var _ := ClientVolume.Retry("error refreshing pool for volume", refresh);
    var v := c.VolLookupByName(pool, name);
    if v.Err? {
      return Err(Wrap("can't retrieve volume " + Quote(name), v.error));
    }
    return Ok(v.value);
  }

  /** Whether a volume called `name` can be found in `pool`. */
  predicate Exists(c: Connect, pool: string, name: string)
    reads c`store
  {
    VolumeFromPool(c, name, pool).Ok?
  }

  /** A volume, given by its key, whose backing store can be read. */
  predicate BackingReadable(c: Connect, key: string)
    reads c`store
  {
    key in c.store.volumes && Call.VolGetName(key) !in c.fails &&
    Call.VolGetXMLDesc(key) !in c.fails && Call.VolGetPath(key) !in c.fails
  }

  /** The backing store a volume layered on the base volume of `input` gets. */
  function BaseBacking(c: Connect, input: UtilsClient.CreateVolumeInput): BackingStore
    reads c`store
  {
    if input.poolName in c.pools then UtilsClient.BackingOf(c, c.KeyIn(input.poolName, input.baseVolumeID))
    else UtilsClient.BackingOf(c, "")
  }

  /**
   * The first steps of `CreateVolume`: a name the pool already resolves is
   * refused; a source image (read as `img`) sets the capacity; a base
   * volume, looked up by name in the same pool, sets the fixed size and the
   * backing store.  Nothing in the store changes.
   */
  method DefineVolume(c: Connect, input: UtilsClient.CreateVolumeInput, img: Result<ClientVolume.Image>)
    returns (r: Result<(VolumeDef, ClientVolume.Image)>)
    modifies c
    ensures c.store == old(c.store) && old(c.trace) <= c.trace
    ensures Exists(c, input.poolName, input.volumeName) ==>
              r == Err(ClientClient.AlreadyExistsError(input.volumeName))
    ensures !Exists(c, input.poolName, input.volumeName) && input.source != "" && input.baseVolumeID != "" ==>
              r == Err(UtilsClient.SourceAndBaseIDError)
    ensures !Exists(c, input.poolName, input.volumeName) && input.source != "" && input.baseVolumeID == "" &&
            img.Err? ==>
              r == Err(img.error)
    ensures !Exists(c, input.poolName, input.volumeName) && input.source != "" && input.baseVolumeID == "" &&
            img.Ok? ==>
              r == Ok((UtilsClient.DefFor(input, UtilsClient.ImageSize(img), UtilsClient.BackingOf(c, "")), img.value))
    ensures !Exists(c, input.poolName, input.volumeName) && input.source == "" && input.baseVolumeID != "" &&
            !Exists(c, input.poolName, input.baseVolumeID) ==>
              r == Err(Fail("Can't retrieve volume " + input.baseVolumeID))
    ensures !Exists(c, input.poolName, input.volumeName) && input.source == "" && input.baseVolumeID != "" &&
            Exists(c, input.poolName, input.baseVolumeID) ==>
              (r.Ok? <==> BackingReadable(c, c.KeyIn(input.poolName, input.baseVolumeID))) &&
              (r.Err? ==> r == Err(Fail("Could not retrieve backing store " + input.baseVolumeID)))
    ensures !Exists(c, input.poolName, input.volumeName) && input.source == "" && input.baseVolumeID == "" ==> r.Ok?
    ensures input.source == "" && r.Ok? ==>
              r.value.0 == UtilsClient.DefFor(input, 0, BaseBacking(c, input)) && r.value.1.data == []
  {
    var existing := GetVolumeFromPool(c, input.volumeName, input.poolName);
    if existing.Ok? {
      return Err(ClientClient.AlreadyExistsError(input.volumeName));
    }
    r := DefineFresh(c, input, img);
  }

  /** `DefineVolume` past the name check. */
  method DefineFresh(c: Connect, input: UtilsClient.CreateVolumeInput, img: Result<ClientVolume.Image>)
    returns (r: Result<(VolumeDef, ClientVolume.Image)>)
    modifies c
    ensures c.store == old(c.store) && old(c.trace) <= c.trace
    ensures input.source != "" && input.baseVolumeID != "" ==> r == Err(UtilsClient.SourceAndBaseIDError)
    ensures input.source != "" && input.baseVolumeID == "" && img.Err? ==> r == Err(img.error)
    ensures input.source != "" && input.baseVolumeID == "" && img.Ok? ==>
              r == Ok((UtilsClient.DefFor(input, UtilsClient.ImageSize(img), UtilsClient.BackingOf(c, "")), img.value))
    ensures input.source == "" && input.baseVolumeID != "" && !Exists(c, input.poolName, input.baseVolumeID) ==>
              r == Err(Fail("Can't retrieve volume " + input.baseVolumeID))
    ensures input.source == "" && input.baseVolumeID != "" && Exists(c, input.poolName, input.baseVolumeID) ==>
              (r.Ok? <==> BackingReadable(c, c.KeyIn(input.poolName, input.baseVolumeID))) &&
              (r.Err? ==> r == Err(Fail("Could not retrieve backing store " + input.baseVolumeID)))
    ensures input.source == "" && input.baseVolumeID == "" ==> r.Ok?
    ensures input.source == "" && r.Ok? ==>
              r.value.0 == UtilsClient.DefFor(input, 0, BaseBacking(c, input)) && r.value.1.data == []
  {
    var def := UtilsClient.DefFor(input, 0, UtilsClient.BackingOf(c, ""));
    if input.source != "" {
      if input.baseVolumeID != "" {
        return Err(UtilsClient.SourceAndBaseIDError);
      }
      if img.Err? {
        return Err(img.error);
      }
      return Ok((UtilsClient.DefFor(input, UtilsClient.ImageSize(img), UtilsClient.BackingOf(c, "")), img.value));
    } else if input.baseVolumeID != "" {
      var base := GetVolumeFromPool(c, input.baseVolumeID, input.poolName);
      if base.Err? {
        return Err(Fail("Can't retrieve volume " + input.baseVolumeID));
      }
      var backing := ClientVolume.NewDefBackingStoreFromLibvirt(c, base.value);
      if backing.Err? {
        return Err(Fail("Could not retrieve backing store " + input.baseVolumeID));
      }
      def := UtilsClient.DefFor(input, 0, backing.value);
    }
    return Ok((def, ClientVolume.Image("", [])));
  }

  /**
   * The pool step of `CreateVolume` as written: the pool is looked up and
   * refreshed before the lookup's error is checked, so a pool that cannot
   * be looked up is refreshed through a nil pointer, which panics.
   */
  method OpenPoolAsWritten(c: Connect, pool: string) returns (err: Outcome)
    modifies c
    ensures c.store == old(c.store) && old(c.trace) <= c.trace
    ensures err == (if UtilsClient.PoolFound(c, pool) then None else Some(NilDeref))
  {
    var e := c.PoolLookupByName(pool);
    if e.Some? {
      return Some(NilDeref);
    }
    var refresh := c.PoolRefresh(pool);
    var _ := ClientVolume.Retry("error refreshing pool for volume", refresh);
    err := None;
  }

  /** The pool step of `CreateVolume` with the lookup's error checked first. */
  method OpenPool(c: Connect, pool: string) returns (err: Outcome)
    modifies c
    ensures c.store == old(c.store) && old(c.trace) <= c.trace
    ensures err == (if UtilsClient.PoolFound(c, pool) then None else Some(UtilsClient.NoPoolError(pool)))
  {
    var e := c.PoolLookupByName(pool);
    if e.Some? {
      return Some(UtilsClient.NoPoolError(pool));
    }
    var refresh := c.PoolRefresh(pool);
    var _ := ClientVolume.Retry("error refreshing pool for volume", refresh);
    err := None;
  }

  /**
   * `CreateVolume(volumeName, poolName, baseVolumeName, source, format)`
   * as written.  A name the pool cannot resolve counts as free, also when
   * the pool itself is unknown; the definition is then made and the pool
   * opened, which panics for an unknown pool.  With the pool found it
   * refuses and creates exactly as `CreateVolume` does.
   */
  method CreateVolumeAsWritten(c: Connect, input: UtilsClient.CreateVolumeInput, img: Result<ClientVolume.Image>)
    returns (err: Outcome)
    modifies c
    ensures c.store.domains == old(c.store.domains) && c.store.networks == old(c.store.networks)
    ensures old(Exists(c, input.poolName, input.volumeName)) ==>
              err == Some(ClientClient.AlreadyExistsError(input.volumeName)) && c.store == old(c.store)
    ensures !old(Exists(c, input.poolName, input.volumeName)) && input.source != "" && input.baseVolumeID != "" ==>
              err == Some(UtilsClient.SourceAndBaseIDError) && c.store == old(c.store)
    ensures !old(Exists(c, input.poolName, input.volumeName)) && input.source != "" && input.baseVolumeID == "" &&
            img.Err? ==>
              err == Some(img.error) && c.store == old(c.store)
    ensures !old(Exists(c, input.poolName, input.volumeName)) && input.source == "" && input.baseVolumeID != "" &&
            !old(Exists(c, input.poolName, input.baseVolumeID)) ==>
              err == Some(Fail("Can't retrieve volume " + input.baseVolumeID)) && c.store == old(c.store)
    ensures !UtilsClient.PoolFound(c, input.poolName) && input.source == "" && input.baseVolumeID == "" ==>
              err == Some(NilDeref) && c.store == old(c.store)
    ensures UtilsClient.PoolFound(c, input.poolName) && !old(Exists(c, input.poolName, input.volumeName)) &&
            input.source == "" && input.baseVolumeID == "" ==>
              (err.None? <==> c.KeyIn(input.poolName, input.volumeName) !in old(c.store.volumes) &&
                              Call.VolCreateXML(input.poolName, input.volumeName) !in c.fails &&
                              Call.VolGetKey(c.KeyIn(input.poolName, input.volumeName)) !in c.fails)
    ensures err.None? ==>
              UtilsClient.PoolFound(c, input.poolName) && !old(Exists(c, input.poolName, input.volumeName)) &&
              (input.source != "" ==> img.Ok?) &&
              var key := c.KeyIn(input.poolName, input.volumeName);
              var def := UtilsClient.DefFor(input, UtilsClient.ImageSize(img), old(BaseBacking(c, input)));
              key !in old(c.store.volumes) &&
              c.store.volumes == old(c.store.volumes)[key := Volume(input.poolName, def, 0,
                                   if input.source != "" then ClientVolume.Uploaded(c, key, def.capacity.value, img.value.data)
                                   else [])]
  {
    var def := DefineVolume(c, input, img);
    if def.Err? {
      return Some(def.error);
    }
    err := OpenPoolAsWritten(c, input.poolName);
    if err.Some? {
      return;
    }
    err := UtilsClient.CreateAndImport(c, input.poolName, def.value.0, input.source, def.value.1);
  }

  /**
   * `CreateVolume` with the pool's lookup error reported before the pool is
   * used.  An existing name, a source given with a base, an unreadable
   * image or base are refused and change nothing; otherwise the volume is
   * created in the pool and the source image uploaded into it.
   */
  method CreateVolume(c: Connect, input: UtilsClient.CreateVolumeInput, img: Result<ClientVolume.Image>)
    returns (err: Outcome)
    modifies c
    ensures c.store.domains == old(c.store.domains) && c.store.networks == old(c.store.networks)
    ensures old(Exists(c, input.poolName, input.volumeName)) ==>
              err == Some(ClientClient.AlreadyExistsError(input.volumeName)) && c.store == old(c.store)
    ensures !old(Exists(c, input.poolName, input.volumeName)) && input.source != "" && input.baseVolumeID != "" ==>
              err == Some(UtilsClient.SourceAndBaseIDError) && c.store == old(c.store)
    ensures !old(Exists(c, input.poolName, input.volumeName)) && input.source != "" && input.baseVolumeID == "" &&
            img.Err? ==>
              err == Some(img.error) && c.store == old(c.store)
    ensures !old(Exists(c, input.poolName, input.volumeName)) && input.source == "" && input.baseVolumeID != "" &&
            !old(Exists(c, input.poolName, input.baseVolumeID)) ==>
              err == Some(Fail("Can't retrieve volume " + input.baseVolumeID)) && c.store == old(c.store)
    ensures !UtilsClient.PoolFound(c, input.poolName) && input.source == "" && input.baseVolumeID == "" ==>
              err == Some(UtilsClient.NoPoolError(input.poolName)) && c.store == old(c.store)
    ensures UtilsClient.PoolFound(c, input.poolName) && !old(Exists(c, input.poolName, input.volumeName)) &&
            input.source == "" && input.baseVolumeID == "" ==>
              (err.None? <==> c.KeyIn(input.poolName, input.volumeName) !in old(c.store.volumes) &&
                              Call.VolCreateXML(input.poolName, input.volumeName) !in c.fails &&
                              Call.VolGetKey(c.KeyIn(input.poolName, input.volumeName)) !in c.fails)
    ensures err.None? ==>
              UtilsClient.PoolFound(c, input.poolName) && !old(Exists(c, input.poolName, input.volumeName)) &&
              (input.source != "" ==> img.Ok?) &&
              var key := c.KeyIn(input.poolName, input.volumeName);
              var def := UtilsClient.DefFor(input, UtilsClient.ImageSize(img), old(BaseBacking(c, input)));
              key !in old(c.store.volumes) &&
              c.store.volumes == old(c.store.volumes)[key := Volume(input.poolName, def, 0,
                                   if input.source != "" then ClientVolume.Uploaded(c, key, def.capacity.value, img.value.data)
                                   else [])]
  {
    var def := DefineVolume(c, input, img);
    if def.Err? {
      return Some(def.error);
    }
    err := OpenPool(c, input.poolName);
    if err.Some? {
      return;
    }
    err := UtilsClient.CreateAndImport(c, input.poolName, def.value.0, input.source, def.value.1);
  }

  /**
   * `DeleteVolume(name, pool)`: the volume is found by name in the pool,
   * its description read (a workaround that makes a failing delete rarer),
   * then deleted.  Each failure is reported with the volume's name.
   */
  method DeleteVolume(c: Connect, name: string, pool: string) returns (err: Outcome)
    modifies c
    ensures c.store.domains == old(c.store.domains) && c.store.networks == old(c.store.networks)
    ensures old(VolumeFromPool(c, name, pool)).Err? ==>
              err == Some(Wrap("failed getting volume from pool", old(VolumeFromPool(c, name, pool)).error)) &&
              c.store == old(c.store)
    ensures old(VolumeFromPool(c, name, pool)).Ok? ==>
              var key := old(VolumeFromPool(c, name, pool)).value;
              (Call.VolGetXMLDesc(key) in c.fails ==>
                 err == Some(Wrap("Can't retrieve volume " + name + " XML desc", ErrorOf(c.fails[Call.VolGetXMLDesc(key)]))) &&
                 c.store == old(c.store)) &&
              (Call.VolGetXMLDesc(key) !in c.fails && Call.VolDelete(key) in c.fails ==>
                 err == Some(Wrap("Can't delete volume " + name, ErrorOf(c.fails[Call.VolDelete(key)]))) &&
                 c.store == old(c.store)) &&
              (err.None? <==> Call.VolGetXMLDesc(key) !in c.fails && Call.VolDelete(key) !in c.fails) &&
              (err.None? ==> c.store.volumes == old(c.store.volumes) - {key})
  {
    var volume := GetVolumeFromPool(c, name, pool);
    if volume.Err? {
      return Some(Wrap("failed getting volume from pool", volume.error));
    }
    var desc := c.VolGetXMLDesc(volume.value);
    if desc.Err? {
      return Some(Wrap("Can't retrieve volume " + name + " XML desc", desc.error));
    }
    var e := c.VolDelete(volume.value);
    if e.Some? {
      return Some(Wrap("Can't delete volume " + name, e.value));
    }
    err := None;
  }
}
