/**
 * Ignition in the newest client (pkg/cloud/libvirt/client/ignition.go): the
 * user-data secret is written to a temporary file, uploaded as a raw volume,
 * and the domain learns of it through QEMU's fw_cfg.
 */
module ClientIgnition {
  import opened Wrappers
  import opened Strs
  import opened LibvirtXml
  import opened Hypervisor
  import opened Kube
  import opened ClientVolume
  import ClientDomain

  /** The error for Ignition content that is neither a local file nor a JSON object. */
  function NotIgnitionError(content: string): Error {
    Fail("coreos_ignition 'content' is neither a file nor a valid json object " + content)
  }

  /**
   * `createFile()`: the bytes of the temporary Ignition file.  When the
   * content names an existing local file (`files` is the local file system)
   * that file is copied; otherwise the content must be a JSON object
   * (`isJSONObject` is what `json.Unmarshal` into a map decides) and is
   * written as it is.
   */
  function IgnitionFile(content: string, files: map<string, seq<byte>>, isJSONObject: bool): (r: Result<seq<byte>>)
    ensures content in files ==> r == Ok(files[content])
    ensures content !in files && isJSONObject ==> r == Ok(TextBytes(content))
    ensures content !in files && !isJSONObject ==>
              r == Err(NotIgnitionError(content))
  {
    if content in files then Ok(files[content])
    else if isJSONObject then Ok(TextBytes(content))
    else Err(NotIgnitionError(content))
  }

  /** A secret holding a JSON object that is not a local path ends up in the file byte for byte. */
  lemma IgnitionFileOfSecret(secret: seq<byte>, files: map<string, seq<byte>>)
    requires BytesText(secret) !in files
    ensures IgnitionFile(BytesText(secret), files, true) == Ok(secret)
  {
    TextBytesOfBytesText(secret);
  }

  /** The definition of the Ignition volume: raw, sized in bytes to the file. */
  function IgnitionVolumeDef(name: string, size: uint64): (v: VolumeDef)
    ensures v.name == name && v.format == "raw" && v.capacity == Capacity("B", size)
    ensures v.mode == NewDefVolume(name).mode && v.backing == None
  {
    NewDefVolume(name).(format := "raw", capacity := Capacity("B", size))
  }

  /**
   * `createAndUpload(client)` for the Ignition `name`/`pool`/`content`: finds
   * the pool, refreshes it (retrying), writes the temporary file
   * (`tempName` is the random name the file gets), creates the volume,
   * uploads the file and returns the volume's key.
   */
  method CreateAndUpload(c: Connect, name: string, pool: string, content: string,
                         files: map<string, seq<byte>>, isJSONObject: bool, tempName: string)
    returns (r: Result<string>)
    modifies c
    ensures c.Effect(Call.PoolLookupByName(pool), pool in c.pools, NoStoragePool).Some? ==>
              r == Err(NoPoolError(pool)) && c.store == old(c.store)
    ensures pool in c.pools && Call.PoolLookupByName(pool) !in c.fails && Call.PoolRefresh(pool) in c.fails ==>
              r == Err(RefreshError(ErrorOf(c.fails[Call.PoolRefresh(pool)])))
              && c.store == old(c.store)
    ensures pool in c.pools && Call.PoolLookupByName(pool) !in c.fails && Call.PoolRefresh(pool) !in c.fails &&
            IgnitionFile(content, files, isJSONObject).Err? ==>
              r == Err(IgnitionFile(content, files, isJSONObject).error) && c.store == old(c.store)
    ensures r.Ok? ==> pool in c.pools && IgnitionFile(content, files, isJSONObject).Ok? &&
                      r.value == c.KeyIn(pool, name) && r.value !in old(c.store.volumes)
    ensures r.Ok? ==>
              var data := IgnitionFile(content, files, isJSONObject).value;
              c.store.volumes == old(c.store.volumes)[r.value := Volume(pool, IgnitionVolumeDef(name, ToUint64(|data|)), 0,
                                                                        Uploaded(c, r.value, ToUint64(|data|), data))]
    ensures c.store.domains == old(c.store.domains) && c.store.networks == old(c.store.networks)
  {
    var e := RefreshPool(c, pool);
    if e.Some? {
      return Err(e.value);
    }
    var file := IgnitionFile(content, files, isJSONObject);
    if file.Err? {
      return Err(file.error);
    }
    var img := Image(tempName, file.value);
    r := CreateAndCopy(c, pool, IgnitionVolumeDef(name, ToUint64(|img.data|)), img,
                       "Error creating libvirt volume for Ignition ", "Error while uploading ignition file ");
  }

  /**
   * `setIgnition(domainDef, client, ignition, kubeClient, namespace,
   * volumeName, poolName)`: reads the "userData" entry of the named secret,
   * uploads it as the Ignition volume and points the domain's fw_cfg at the
   * volume's key.  On any error the domain definition is left as it was.
   */
  method SetIgnition(d: ClientDomain.Domain, c: Connect, userDataSecret: string, secrets: Secrets,
                     namespace: string, volumeName: string, poolName: string,
                     files: map<string, seq<byte>>, isJSONObject: bool, tempName: string)
    returns (err: Outcome)
    modifies d, c
    ensures userDataSecret == "" ==>
              err == Some(Fail("ignition.userDataSecret not set")) && c.store == old(c.store) && c.trace == old(c.trace)
    ensures userDataSecret != "" && UserData(secrets, namespace, userDataSecret, "userData").Err? ==>
              err == Some(UserData(secrets, namespace, userDataSecret, "userData").error) &&
              c.store == old(c.store) && c.trace == old(c.trace)
    ensures err.Some? ==> d.def == old(d.def)
    ensures err.None? ==>
              userDataSecret != "" && UserData(secrets, namespace, userDataSecret, "userData").Ok? &&
              poolName in c.pools && c.KeyIn(poolName, volumeName) in c.store.volumes &&
              d.def == old(d.def).(qemuArgs := Some(ClientDomain.FwCfgArgs(c.KeyIn(poolName, volumeName))))
    ensures c.store.domains == old(c.store.domains) && c.store.networks == old(c.store.networks)
  {
    if userDataSecret == "" {
      return Some(Fail("ignition.userDataSecret not set"));
    }
    var data := UserData(secrets, namespace, userDataSecret, "userData");
    if data.Err? {
      return Some(data.error);
    }
    var key := CreateAndUpload(c, volumeName, poolName, BytesText(data.value), files, isJSONObject, tempName);
    if key.Err? {
      return Some(key.error);
    }
    d.def := d.def.(qemuArgs := Some(ClientDomain.FwCfgArgs(key.value)));
    err := None;
  }
}
