/**
 * Cloud-init support of the oldest machine helpers
 * (cloud/libvirt/actuators/machine/utils/cloudinit.go): a prebuilt ISO image
 * is attached as a cdrom, and the user data, base64-encoded, is handed to
 * the guest as numbered firmware-configuration strings of at most 1020
 * characters each.
 */
module LegacyCloudInit {
  import opened Wrappers
  import opened Strs
  import opened LibvirtXml
  import opened Kube
  import Base64
  import ClientDomain
  import ClientCloudInit

  /** The firmware-configuration limit of 1024 characters, rounded down to 1020 to leave room. */
  const MaxFirmwareCfgChunkSize: nat := 1020

  // ----- splitting the user data -----

  /** `s` cut into pieces of `m` characters, the last one holding what is left (possibly fewer). */
  function Chunks(s: string, m: nat): (cs: seq<string>)
    requires m > 0
    decreases |s|
  {
    if |s| == 0 then []
    else if |s| <= m then [s]
    else [s[..m]] + Chunks(s[m..], m)
  }

  /** The pieces put back together give the text. */
  lemma {:induction false} ChunksConcat(s: string, m: nat)
    requires m > 0
    ensures Concat(Chunks(s, m)) == s
    decreases |s|
  {
    if |s| > m {
      ChunksConcat(s[m..], m);
      assert s == s[..m] + s[m..];
    }
  }

  /** Every piece but the last has exactly `m` characters; the last has between 1 and `m`. */
  lemma {:induction false} ChunksSizes(s: string, m: nat)
    requires m > 0
    ensures forall j :: 0 <= j < |Chunks(s, m)| - 1 ==> |Chunks(s, m)[j]| == m
    ensures |Chunks(s, m)| > 0 ==> 1 <= |Chunks(s, m)[|Chunks(s, m)| - 1]| <= m
    decreases |s|
  {
    if |s| > m {
      ChunksSizes(s[m..], m);
      var rest := Chunks(s[m..], m);
      assert Chunks(s, m) == [s[..m]] + rest;
      assert rest != [];
      forall j | 0 <= j < |Chunks(s, m)| - 1
        ensures |Chunks(s, m)[j]| == m
      {
        if j > 0 {
          assert Chunks(s, m)[j] == rest[j - 1];
        }
      }
    }
  }

  /** Multiplying by a natural number keeps the order. */
  lemma MulLe(a: int, b: int, m: nat)
    requires a <= b
    ensures a * m <= b * m
  {
  }

  /** Quotient and remainder are the only ones of their kind. */
  lemma DivUnique(n: nat, m: nat, q: int, r: int)
    requires m > 0 && n == q * m + r && 0 <= r < m
    ensures n / m == q && n % m == r
  {
    var q0, r0 := n / m, n % m;
    assert n == q0 * m + r0;
    if q0 < q {
      MulLe(q0 + 1, q, m);
      assert false;
    } else if q < q0 {
      MulLe(q + 1, q0, m);
      assert false;
    }
  }

  /** Taking `m` characters off the front lowers the quotient by one and keeps the remainder. */
  lemma DivStep(n: nat, m: nat)
    requires 0 < m < n
    ensures (n - m) / m == n / m - 1 && (n - m) % m == n % m
  {
    var q, r := n / m, n % m;
    assert n == q * m + r;
    assert (q - 1) * m == q * m - m;
    DivUnique(n - m, m, q - 1, r);
  }

  /** There are ceil(|s| / m) pieces: one per full `m` characters, and one more for a remainder. */
  lemma {:induction false} ChunksCount(s: string, m: nat)
    requires m > 0
    ensures |Chunks(s, m)| == |s| / m + (if |s| % m > 0 then 1 else 0)
    decreases |s|
  {
    if |s| > m {
      ChunksCount(s[m..], m);
      DivStep(|s|, m);
    } else if |s| == m {
      assert |s| / m == 1 && |s| % m == 0;
    } else {
      assert |s| / m == 0;
    }
  }

  /** Piece j, for j below the number of full pieces, is the j-th run of `m` characters. */
  lemma {:induction false} ChunksFull(s: string, m: nat, j: nat)
    requires m > 0 && (j + 1) * m <= |s|
    ensures j < |Chunks(s, m)| && Chunks(s, m)[j] == s[j * m..(j + 1) * m]
    decreases j
  {
    if j == 0 {
      if |s| == m {
        assert s[0..m] == s;
      }
    } else {
      assert (j + 1) * m == j * m + m;
      assert j * m == (j - 1) * m + m;
      ChunksFull(s[m..], m, j - 1);
      assert s[m..][(j - 1) * m..j * m] == s[j * m..(j + 1) * m];
    }
  }

  /** After q full pieces and a remainder of r > 0 characters, piece q is that remainder. */
  lemma {:induction false} ChunksRest(s: string, m: nat, q: nat, r: nat)
    requires m > 0 && |s| == q * m + r && 0 < r < m
    ensures q < |Chunks(s, m)| && q * m <= |s| && Chunks(s, m)[q] == s[q * m..]
    decreases q
  {
    if q == 0 {
      assert |s| == r;
    } else {
      var k := (q - 1) * m;
      assert k + m == q * m;
      assert |s[m..]| == k + r;
      ChunksRest(s[m..], m, q - 1, r);
      assert Chunks(s, m) == [s[..m]] + Chunks(s[m..], m);
      assert s[m..][k..] == s[q * m..];
    }
  }

  /** A full piece lies inside the text. */
  lemma FullPieceInside(n: nat, m: nat, i: nat)
    requires m > 0 && i < n / m
    ensures (i + 1) * m <= n
  {
    MulLe(i + 1, n / m, m);
    assert (n / m) * m + n % m == n;
  }

  /** Piece i, for i below the number of full pieces, is the i-th run of `m` characters of the text. */
  lemma FullPiece(s: string, m: nat, i: nat)
    requires m > 0 && i < |s| / m
    ensures (i + 1) * m <= |s| && i < |Chunks(s, m)| && Chunks(s, m)[i] == s[i * m..(i + 1) * m]
  {
    FullPieceInside(|s|, m, i);
    ChunksFull(s, m, i);
  }

  /**
   * `breakUserDataIntoChunks(userData, chunkMaxSize)`: the full pieces of
   * `chunkMaxSize` characters, then the remainder when there is one.
   */
  method BreakUserDataIntoChunks(userData: string, chunkMaxSize: nat) returns (b: seq<string>)
    requires chunkMaxSize > 0
    ensures b == Chunks(userData, chunkMaxSize)
  {
    var m := chunkMaxSize;
    var chunks := |userData| / m;
    ChunksCount(userData, m);
    var full := new string[chunks];
    for i := 0 to chunks
      invariant forall j :: 0 <= j < i ==> full[j] == Chunks(userData, m)[j]
    {
      FullPiece(userData, m, i);
      full[i] := userData[i * m..(i + 1) * m];
    }
    b := full[..];
    if |userData| % m > 0 {
      assert chunks * m + |userData| % m == |userData|;
      ChunksRest(userData, m, chunks, |userData| % m);
      b := b + [userData[chunks * m..]];
    }
    forall j | 0 <= j < |b|
      ensures b[j] == Chunks(userData, m)[j]
    {
    }
  }

  // ----- the firmware-configuration arguments -----

  /** The key prefix of the cloud-init firmware-configuration items. */
  const ConfigPrefix := "name=opt/actuator.libvirt.io.k8s.sigs/config"

  /** `name=opt/actuator.libvirt.io.k8s.sigs/config<idx>,string=<chunk>`, the index zero-padded to `width` digits. */
  function ChunkArg(idx: nat, width: nat, chunk: string): string {
    ConfigPrefix + ZeroPad(idx, width) + ",string=" + chunk
  }

  /** The two QEMU arguments per piece, in piece order. */
  function ChunkArgs(chunks: seq<string>, width: nat): (args: seq<string>)
    decreases |chunks|
  {
    if |chunks| == 0 then []
    else ChunkArgs(chunks[..|chunks| - 1], width) + ["-fw_cfg", ChunkArg(|chunks| - 1, width, chunks[|chunks| - 1])]
  }

  /** Argument 2i is "-fw_cfg" and argument 2i+1 names piece i by its padded index and carries it. */
  lemma {:induction false} ChunkArgsAt(chunks: seq<string>, width: nat)
    ensures |ChunkArgs(chunks, width)| == 2 * |chunks|
    ensures forall i :: 0 <= i < |chunks| ==>
              ChunkArgs(chunks, width)[2 * i] == "-fw_cfg" &&
              ChunkArgs(chunks, width)[2 * i + 1] == ChunkArg(i, width, chunks[i])
    decreases |chunks|
  {
    if |chunks| > 0 {
      var init := chunks[..|chunks| - 1];
      ChunkArgsAt(init, width);
      forall i | 0 <= i < |chunks|
        ensures ChunkArgs(chunks, width)[2 * i] == "-fw_cfg" &&
                ChunkArgs(chunks, width)[2 * i + 1] == ChunkArg(i, width, chunks[i])
      {
        if i < |chunks| - 1 {
          assert chunks[i] == init[i];
        }
      }
    }
  }

  /** The arguments for `chunks`, zero-padding every index to the number of pieces. */
  method FirmwareArgs(chunks: seq<string>) returns (args: seq<string>)
    ensures args == ChunkArgs(chunks, |chunks|)
  {
    args := [];
    for idx := 0 to |chunks|
      invariant args == ChunkArgs(chunks[..idx], |chunks|)
    {
      assert chunks[..idx + 1][..idx] == chunks[..idx];
      args := args + ["-fw_cfg"];
      args := args + [ChunkArg(idx, |chunks|, chunks[idx])];
    }
    assert chunks[..|chunks|] == chunks;
  }

  // ----- setCloudInit -----

  /** `providerconfigv1.CloudInit` of this generation: the user-data secret and the prebuilt ISO image. */
  datatype CloudInitConfig = CloudInitConfig(userDataSecret: string, isoImagePath: string)

  const EmptyISOError := Fail("error setting cloud-init, ISO image path is empty")

  /**
   * The user data a secret holds, base64 encoded; a secret without a
   * "userData" entry holds none.
   */
  function EncodedUserData(data: SecretData): string {
    Base64.Encode(if "userData" in data then data["userData"] else [])
  }

  /** The QEMU command line that carries `data`'s user data in pieces of 1020 characters. */
  function UserDataArgs(data: SecretData): (args: seq<string>)
  {
    var cs := Chunks(EncodedUserData(data), MaxFirmwareCfgChunkSize);
    ChunkArgs(cs, |cs|)
  }

  /** The pieces the command line carries decode back to the user data. */
  lemma UserDataArgsCarryData(data: SecretData)
    ensures var cs := Chunks(EncodedUserData(data), MaxFirmwareCfgChunkSize);
            |UserDataArgs(data)| == 2 * |cs| &&
            Base64.Decode(Concat(cs)) == Some(if "userData" in data then data["userData"] else [])
  {
    var cs := Chunks(EncodedUserData(data), MaxFirmwareCfgChunkSize);
    ChunkArgsAt(cs, |cs|);
    ChunksConcat(EncodedUserData(data), MaxFirmwareCfgChunkSize);
    Base64.DecodeEncode(if "userData" in data then data["userData"] else []);
  }

  /**
   * `setCloudInit(domainDef, cloudInit, kubeClient, namespace)`: an empty ISO
   * path is an error and nothing changes; otherwise the ISO is attached as
   * a cdrom first.  Then, when a secret is named, its user data replaces
   * the QEMU command line as numbered firmware-configuration strings; a
   * secret that cannot be read is an error, with the cdrom already
   * attached.
   */
  method SetCloudInit(d: ClientDomain.Domain, ci: CloudInitConfig, secrets: Secrets, namespace: string)
    returns (err: Outcome)
    modifies d
    ensures ci.isoImagePath == "" ==> err == Some(EmptyISOError) && d.def == old(d.def)
    ensures ci.isoImagePath != "" ==>
              var attached := old(d.def).(devices := old(d.def).devices.(disks := old(d.def).devices.disks +
                                                                         [ClientCloudInit.CdromDisk(ci.isoImagePath)]));
              (ci.userDataSecret == "" ==> err == None && d.def == attached) &&
              (ci.userDataSecret != "" ==>
                 var secret := GetSecret(secrets, namespace, ci.userDataSecret);
                 (secret.Err? ==> err == Some(Wrap(SecretContext(namespace, ci.userDataSecret), secret.error)) &&
                                  d.def == attached) &&
                 (secret.Ok? ==> err == None && d.def == attached.(qemuArgs := Some(UserDataArgs(secret.value)))))
  {
    if ci.isoImagePath == "" {
      return Some(EmptyISOError);
    }
    d.def := d.def.(devices := d.def.devices.(disks := d.def.devices.disks + [ClientCloudInit.CdromDisk(ci.isoImagePath)]));
    if ci.userDataSecret != "" {
      var secret := GetSecret(secrets, namespace, ci.userDataSecret);
      if secret.Err? {
        return Some(Wrap(SecretContext(namespace, ci.userDataSecret), secret.error));
      }
      var enc := EncodedUserData(secret.value);
      var chunks := BreakUserDataIntoChunks(enc, MaxFirmwareCfgChunkSize);
      var args := FirmwareArgs(chunks);
      d.def := d.def.(qemuArgs := Some(args));
    }
    err := None;
  }
}
