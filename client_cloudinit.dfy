/**
 * cloud-init in the newest client (pkg/cloud/libvirt/client/cloudinit.go):
 * the user-data and meta-data documents, and the ISO that carries them to
 * the guest as a CD-ROM.
 */
module ClientCloudInit {
  import opened Wrappers
  import opened Strs
  import opened LibvirtXml
  import opened Hypervisor
  import opened Kube
  import opened ClientVolume
  import opened CloudInitUserData
  import ClientDomain

  // ----- the meta-data document -----

  /** `renderMetaDataStr(id)`: the instance id, which is also the local host name. */
  function RenderMetaDataStr(instanceID: string): string {
    "\ninstance-id: " + instanceID + "; local-hostname: " + instanceID + "\n"
  }

  /** The instance id and the local host name a meta-data document declares, when it has that form. */
  function MetaDataFields(t: string): Option<(string, string)> {
    var parts := Split(t, ";");
    if |parts| != 2 || !HasPrefix(parts[0], "\ninstance-id: ") || !HasPrefix(parts[1], " local-hostname: ")
       || |parts[1]| < 18 || parts[1][|parts[1]| - 1] != '\n'
    then None
    else Some((parts[0][14..], parts[1][17..|parts[1]| - 1]))
  }

  /** A text without ';' behind a prefix without ';' has none. */
  lemma NoSemicolon(prefix: string, id: string, suffix: string)
    requires ';' !in prefix && ';' !in id && ';' !in suffix
    ensures ';' !in prefix + id + suffix
  {
  }

  /** The text between a prefix and a suffix is what was put there. */
  lemma Between(p: string, x: string, q: string)
    ensures HasPrefix(p + x + q, p) && (p + x + q)[|p|..|p + x + q| - |q|] == x
  {
    var t := p + x + q;
    assert t[..|p|] == p;
    assert t[|p|..|t| - |q|] == x;
  }

  /** Without ';' in the name, the meta-data document splits at ';' into the two declarations. */
  lemma MetaDataSplit(instanceID: string)
    requires ';' !in instanceID
    ensures Split(RenderMetaDataStr(instanceID), ";") ==
            ["\ninstance-id: " + instanceID + "", " local-hostname: " + instanceID + "\n"]
  {
    var a := "\ninstance-id: " + instanceID + "";
    var b := " local-hostname: " + instanceID + "\n";
    assert RenderMetaDataStr(instanceID) == a + [';'] + b;
    NoSemicolon("\ninstance-id: ", instanceID, "");
    NoSemicolon(" local-hostname: ", instanceID, "\n");
    SplitAtOnly(a, b, ';');
  }

  /** A name without ';' is declared both as the instance id and as the host name. */
  lemma MetaDataDeclares(instanceID: string)
    requires ';' !in instanceID
    ensures MetaDataFields(RenderMetaDataStr(instanceID)) == Some((instanceID, instanceID))
  {
    MetaDataSplit(instanceID);
    var a := "\ninstance-id: " + instanceID + "";
    var b := " local-hostname: " + instanceID + "\n";
    Between("\ninstance-id: ", instanceID, "");
    Between(" local-hostname: ", instanceID, "\n");
    assert |a| == 14 + |instanceID| && a[14..] == instanceID;
    assert |b| == 18 + |instanceID| && b[|b| - 1] == '\n' && b[17..|b| - 1] == instanceID;
  }

  // ----- setCloudInit -----

  /** The CD-ROM that carries the cloud-init ISO. */
  function CdromDisk(key: string): (d: Disk)
    ensures d.device == "cdrom" && d.source == Some(key) && d.targetDev == "hdd" && d.targetBus == "ide"
    ensures d.driverName == "qemu" && d.driverType == "raw" && !d.readOnly
  {
    Disk("cdrom", Some(key), "hdd", "ide", "qemu", "raw", false, "")
  }

  /** The script run when no user-data secret is named: the shell no-op ":". */
  const NoopScript: seq<byte> := [58]

  /** The script the user data runs: the secret's "userData" entry, or ":" when no secret is named. */
  function CloudInitScript(secrets: Secrets, namespace: string, userDataSecret: string): (r: Result<seq<byte>>)
    ensures userDataSecret == "" ==> r == Ok(NoopScript)
    ensures userDataSecret != "" ==> r == UserData(secrets, namespace, userDataSecret, "data")
  {
    if userDataSecret == "" then Ok(NoopScript) else UserData(secrets, namespace, userDataSecret, "data")
  }

  /** The ISO volume's definition: raw, sized in bytes to the image. */
  function IsoVolumeDef(name: string, size: uint64): (v: VolumeDef)
    ensures v.name == name && v.format == "raw" && v.capacity == Capacity("B", size) && v.backing == None
  {
    NewDefVolume(name).(format := "raw", capacity := Capacity("B", size))
  }

  /**
   * `uploadIso(client, iso)` of the definition named `name` in pool `pool`:
   * the ISO file as read (`img`: the image, or the error `newImage` or its
   * size gave) is uploaded as a raw volume of the file's size.
   */
  method UploadIso(c: Connect, pool: string, name: string, img: Result<Image>) returns (r: Result<string>)
    modifies c
    ensures img.Err? ==> r == Err(img.error) && c.store == old(c.store) && c.trace == old(c.trace)
    ensures img.Ok? && c.Effect(Call.PoolLookupByName(pool), pool in c.pools, NoStoragePool).Some? ==>
              r == Err(NoPoolError(pool)) && c.store == old(c.store)
    ensures r.Ok? ==> img.Ok? && pool in c.pools && r.value == c.KeyIn(pool, name) && r.value !in old(c.store.volumes)
    ensures r.Ok? ==>
              var size := ToUint64(|img.value.data|);
              c.store.volumes == old(c.store.volumes)[r.value := Volume(pool, IsoVolumeDef(name, size), 0,
                                                                        Uploaded(c, r.value, size, img.value.data))]
    ensures c.store.domains == old(c.store.domains) && c.store.networks == old(c.store.networks)
  {
    if img.Err? {
      return Err(img.error);
    }
    r := UploadVolume(c, pool, IsoVolumeDef(name, ToUint64(|img.value.data|)), img.value);
  }

  /**
   * The second half of `setCloudInit`: the ISO is built (`isoErr` is how
   * `mkisofs` and the temporary files fared, `img` the ISO file as read
   * back), uploaded as volume `volumeName` of the client's pool, and attached
   * to the domain as a CD-ROM.
   */
  method AttachIso(d: ClientDomain.Domain, c: Connect, poolName: string, volumeName: string,
                   isoErr: Outcome, img: Result<Image>)
    returns (err: Outcome)
    modifies d, c
    ensures isoErr.Some? ==>
              err == Some(Wrap("unable to create ISO " + volumeName, isoErr.value)) && c.trace == old(c.trace)
    ensures isoErr.None? && img.Err? ==> err == Some(Wrap("unable to upload ISO", img.error)) && c.trace == old(c.trace)
    ensures err.Some? ==> d.def == old(d.def)
    ensures err.None? ==>
              img.Ok? && poolName in c.pools && c.KeyIn(poolName, volumeName) !in old(c.store.volumes) &&
              c.store.volumes == old(c.store.volumes)[c.KeyIn(poolName, volumeName) :=
                Volume(poolName, IsoVolumeDef(volumeName, ToUint64(|img.value.data|)), 0,
                       Uploaded(c, c.KeyIn(poolName, volumeName), ToUint64(|img.value.data|), img.value.data))] &&
              d.def == old(d.def).(devices := old(d.def).devices.(disks := old(d.def).devices.disks +
                                                                         [CdromDisk(c.KeyIn(poolName, volumeName))]))
    ensures c.store.domains == old(c.store.domains) && c.store.networks == old(c.store.networks)
  {
    if isoErr.Some? {
      return Some(Wrap("unable to create ISO " + volumeName, isoErr.value));
    }
    var key := UploadIso(c, poolName, volumeName, img);
    if key.Err? {
      return Some(Wrap("unable to upload ISO", key.error));
    }
    d.def := d.def.(devices := d.def.devices.(disks := d.def.devices.disks + [CdromDisk(key.value)]));
    err := None;
  }

  /**
   * `setCloudInit(ctx, domainDef, client, cloudInit, kubeClient, namespace,
   * volumeName, domainName)`.  Nothing is done unless a user-data secret is
   * named or SSH access is asked for.  The script is the secret's "userData"
   * entry, or ":" when no secret is named.  The user data and the meta data
   * (returned, as the ISO carries them) are rendered, and the ISO is built,
   * uploaded and attached as `AttachIso` says.
   */
  method SetCloudInit(d: ClientDomain.Domain, c: Connect, poolName: string, userDataSecret: string, sshAccess: bool,
                      secrets: Secrets, namespace: string, volumeName: string, domainName: string,
                      isoErr: Outcome, img: Result<Image>)
    returns (err: Outcome, userData: string, metaData: string)
    modifies d, c
    ensures userDataSecret == "" && !sshAccess ==>
              err == None && d.def == old(d.def) && c.store == old(c.store) && c.trace == old(c.trace)
    ensures (userDataSecret != "" || sshAccess) && CloudInitScript(secrets, namespace, userDataSecret).Err? ==>
              err == Some(CloudInitScript(secrets, namespace, userDataSecret).error) &&
              d.def == old(d.def) && c.store == old(c.store) && c.trace == old(c.trace)
    ensures (userDataSecret != "" || sshAccess) && CloudInitScript(secrets, namespace, userDataSecret).Ok? ==>
              (isoErr.Some? ==> err == Some(Wrap("unable to create ISO " + volumeName, isoErr.value)) &&
                                c.trace == old(c.trace)) &&
              (isoErr.None? && img.Err? ==> err == Some(Wrap("unable to upload ISO", img.error)) &&
                                            c.trace == old(c.trace))
    ensures err.Some? ==> d.def == old(d.def)
    ensures err.None? && (userDataSecret != "" || sshAccess) ==>
              img.Ok? && poolName in c.pools && c.KeyIn(poolName, volumeName) !in old(c.store.volumes) &&
              c.store.volumes == old(c.store.volumes)[c.KeyIn(poolName, volumeName) :=
                Volume(poolName, IsoVolumeDef(volumeName, ToUint64(|img.value.data|)), 0,
                       Uploaded(c, c.KeyIn(poolName, volumeName), ToUint64(|img.value.data|), img.value.data))] &&
              d.def == old(d.def).(devices := old(d.def).devices.(disks := old(d.def).devices.disks +
                                                                         [CdromDisk(c.KeyIn(poolName, volumeName))]))
    ensures c.store.domains == old(c.store.domains) && c.store.networks == old(c.store.networks)
    ensures (userDataSecret != "" || sshAccess) && CloudInitScript(secrets, namespace, userDataSecret).Ok? ==>
              userData == RenderCloudInitStr(CloudInitScript(secrets, namespace, userDataSecret).value, sshAccess) &&
              metaData == RenderMetaDataStr(domainName)
  {
    userData, metaData := "", "";
    if userDataSecret == "" && !sshAccess {
      return None, userData, metaData;
    }
    var script := CloudInitScript(secrets, namespace, userDataSecret);
    if script.Err? {
      return Some(script.error), userData, metaData;
    }
    userData := RenderCloudInitStr(script.value, sshAccess);
    metaData := RenderMetaDataStr(domainName);
    err := AttachIso(d, c, poolName, volumeName, isoErr, img);
  }
}
