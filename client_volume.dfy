/**
 * Storage-volume helpers of the newest client (pkg/cloud/libvirt/client/volume.go):
 * volume and backing-store definitions, the epoch-timestamp parser, the
 * retry loop `waitForSuccess`, the stream copier and `uploadVolume`.
 */
module ClientVolume {
  import opened Wrappers
  import opened Strs
  import opened LibvirtXml
  import opened Hypervisor

  /** The size the provider gives a volume it cannot size otherwise (17706254336 bytes). */
  const DefaultSize: uint64 := 17706254336

  /** `waitSleepInterval` (one second) and `waitTimeout` (five minutes), in nanoseconds. */
  const WaitSleepInterval: nat := 1_000_000_000
  const WaitTimeout: nat := 300_000_000_000

  /** The clock of a run in which every call returns at once: after k sleeps, k seconds have passed. */
  function SleepClock(k: nat): (t: nat)
    ensures t >= k * WaitSleepInterval
  {
    k * WaitSleepInterval
  }

  /**
   * `waitForSuccess(msg, f)`: calls `attempt(0)`, `attempt(1)`, ... until one
   * succeeds; after each failure it sleeps, and once the time elapsed since
   * the start (`elapsed(k)` after k failures) exceeds the timeout it gives up
   * with "<msg>: <last error>".  `n` is the number of calls made.
   */
  method WaitForSuccess(msg: string, attempt: nat -> Outcome, elapsed: nat -> nat) returns (err: Outcome, n: nat)
    requires forall k: nat :: elapsed(k) >= k * WaitSleepInterval
    ensures n >= 1
    ensures forall j :: 0 <= j < n - 1 ==> attempt(j).Some?
    ensures forall j :: 1 <= j < n ==> elapsed(j) <= WaitTimeout
    ensures attempt(n - 1).None? ==> err == None
    ensures attempt(n - 1).Some? ==> err == Some(Wrap(msg, attempt(n - 1).value)) && elapsed(n) > WaitTimeout
  {
    var k: nat := 0;
    while true
      invariant k * WaitSleepInterval <= WaitTimeout
      invariant forall j :: 0 <= j < k ==> attempt(j).Some?
      invariant forall j :: 1 <= j <= k ==> elapsed(j) <= WaitTimeout
      decreases WaitTimeout - k * WaitSleepInterval
    {
      var e := attempt(k);
      if e.None? {
        return None, k + 1;
      }
      if elapsed(k + 1) > WaitTimeout {
        return Some(Wrap(msg, e.value)), k + 1;
      }
      k := k + 1;
    }
  }

  /**
   * The one-call retry the client code performs: a hypervisor call whose
   * result `e` never changes succeeds at once or, after the five minutes,
   * fails with "<msg>: <its error>"; the 301 calls a full wait makes are one
   * recorded call in the model.
   */
  method Retry(msg: string, e: Outcome) returns (err: Outcome)
    ensures e.None? ==> err == None
    ensures e.Some? ==> err == Some(Wrap(msg, e.value))
  {
    var n;
    err, n := WaitForSuccess(msg, _ => e, SleepClock);
  }

  /** A permanently failing call is tried `WaitTimeout / WaitSleepInterval + 1` = 301 times. */
  method RetryAttempts(msg: string, e: Error) returns (err: Outcome, n: nat)
    ensures err == Some(Wrap(msg, e)) && n == 301
  {
    err, n := WaitForSuccess(msg, _ => Some(e), SleepClock);
    assert SleepClock(301) > WaitTimeout;
  }

  /** `newDefVolume(name)`: a qcow2 volume, mode 644, of one byte, without backing store. */
  function NewDefVolume(name: string): (v: VolumeDef)
    ensures v.name == name && v.format == "qcow2" && v.mode == "644"
    ensures v.capacity == Capacity("bytes", 1) && v.backing == None
  {
    VolumeDef(name, "qcow2", "644", Capacity("bytes", 1), None)
  }

  /**
   * `newDefVolumeFromLibvirt` followed by `newDefBackingStoreFromLibvirt`: the
   * backing store of a new volume layered on the volume `key`, with the base's
   * path and the base's target format.  Reading the name, the XML description
   * and the path can each fail.
   */
  method NewDefBackingStoreFromLibvirt(c: Connect, key: string) returns (r: Result<BackingStore>)
    modifies c
    ensures c.store == old(c.store) && old(c.trace) <= c.trace
    ensures r.Ok? <==> (key in c.store.volumes && Call.VolGetName(key) !in c.fails &&
                        Call.VolGetXMLDesc(key) !in c.fails && Call.VolGetPath(key) !in c.fails)
    ensures r.Ok? ==> r.value == BackingStore(key, c.store.volumes[key].def.format)
    ensures Call.VolGetName(key) in c.fails ==>
              r == Err(Wrap("could not get volume", Wrap("could not get name for volume", ErrorOf(c.fails[Call.VolGetName(key)]))))
  {
    var name := c.VolGetName(key);
    if name.Err? {
      return Err(Wrap("could not get volume", Wrap("could not get name for volume", name.error)));
    }
    var def := c.VolGetXMLDesc(key);
    if def.Err? {
      return Err(Wrap("could not get volume", Wrap("could not get XML description for volume " + name.value, def.error)));
    }
    var path := c.VolGetPath(key);
    if path.Err? {
      return Err(Wrap("could not get base image path", path.error));
    }
    return Ok(BackingStore(path.value, def.value.format));
  }

  // ----- timeFromEpoch -----

  /** A `time.Time` as its Unix seconds and its nanoseconds within the second. */
  datatype Time = Time(sec: int64, nsec: nat)

  const NanosPerSecond: nat := 1_000_000_000

  /**
   * `time.Unix(sec, nsec)`: nanoseconds outside [0, 1e9) are carried into the
   * seconds (with floor division), and the seconds wrap around as int64.
   */
  function Unix(sec: int64, nsec: int64): (t: Time)
    ensures t.nsec < NanosPerSecond
    ensures 0 <= nsec < NanosPerSecond ==> t == Time(sec, nsec)
    ensures -TwoTo63 <= sec + nsec / NanosPerSecond < TwoTo63 ==>
              t.sec * NanosPerSecond + t.nsec == sec * NanosPerSecond + nsec
  {
    Time(ToInt64(ToUint64(sec + nsec / NanosPerSecond)), nsec % NanosPerSecond)
  }

  /**
   * `timeFromEpoch("<s>.<ns>")`: the text is split at '.'; the nanoseconds are
   * read only when there are exactly two parts, and a part `strconv.Atoi`
   * cannot read counts as 0.
   */
  function TimeFromEpoch(str: string): (t: Time)
    ensures t.nsec < NanosPerSecond
  {
    var ts := Split(str, ".");
    var ns := if |ts| == 2 then Atoi(ts[1]) else 0;
    var s := Atoi(ts[0]);
    Unix(s, ns)
  }

  lemma NoDotInDecimal(x: int)
    ensures '.' !in IntToDecimal(x)
  {
    var d := IntToDecimal(x);
    forall i | 0 <= i < |d| ensures d[i] != '.' {
      if x < 0 && i > 0 {
        assert d[i] == NatToDecimal(-x)[i - 1];
      }
    }
  }

  /** The decimal text "<s>.<ns>" of a timestamp reads back as that timestamp. */
  lemma TimeFromEpochOfDecimal(s: int64, ns: nat)
    requires ns < NanosPerSecond
    ensures TimeFromEpoch(IntToDecimal(s) + "." + IntToDecimal(ns)) == Time(s, ns)
  {
    NoDotInDecimal(s);
    NoDotInDecimal(ns);
    SplitAtOnly(IntToDecimal(s), IntToDecimal(ns), '.');
    assert IntToDecimal(s) + "." + IntToDecimal(ns) == IntToDecimal(s) + ['.'] + IntToDecimal(ns);
    AtoiOfDecimal(s);
    AtoiOfDecimal(ns);
  }

  /** Without a '.', the whole text is the seconds and the nanoseconds are 0. */
  lemma TimeFromEpochSeconds(s: int64)
    ensures TimeFromEpoch(IntToDecimal(s)) == Time(s, 0)
  {
    NoDotInDecimal(s);
    AbsentChar(IntToDecimal(s), '.');
    AtoiOfDecimal(s);
  }

  /** With three or more parts the nanoseconds are not read, whatever the second part says. */
  lemma TimeFromEpochManyParts(s: int64, b: string, rest: string)
    requires '.' !in b
    ensures TimeFromEpoch(IntToDecimal(s) + "." + b + "." + rest) == Time(s, 0)
  {
    NoDotInDecimal(s);
    var a := IntToDecimal(s);
    assert a + "." + b + "." + rest == a + ['.'] + (b + ['.'] + rest);
    SplitFirst(a, b + ['.'] + rest, '.');
    SplitFirst(b, rest, '.');
    AtoiOfDecimal(s);
  }

  /** A part `strconv.Atoi` cannot read counts as 0. */
  lemma TimeFromEpochUnreadable()
    ensures TimeFromEpoch("x.5") == Time(0, 5)
  {
    SplitAtOnly("x", "5", '.');
    assert "x.5" == "x" + ['.'] + "5";
    AtoiOfDecimal(5);
    assert IntToDecimal(5) == "5";
  }

  // ----- upload -----

  /** An image to upload: where it was read from, and its bytes (its size is their number). */
  datatype Image = Image(location: string, data: seq<byte>)

  /** What `io.Copy` into the upload stream of volume `key` reports: the bytes copied, or its error. */
  function SendAnswer(c: Connect, key: string, data: seq<byte>): (r: Result<nat>)
    reads c`store
    ensures r.Ok? ==> r.value == |data|
  {
    c.Answer(Call.StreamSend(key), if key in c.store.volumes then Some(|data|) else None, NoStorageVol)
  }

  /** The number of bytes the copier counts as copied: none when the copy failed. */
  function Copied(c: Connect, key: string, data: seq<byte>): (n: nat)
    reads c`store
  {
    if SendAnswer(c, key, data).Ok? then |data| else 0
  }

  /**
   * The copier `newCopier(conn, volume, size)` applied to `data`: it opens a
   * stream (a failure returns at once), asks for the upload into the volume
   * (whose result it ignores), copies the data, and then, deferred, finishes
   * the stream if exactly `size` bytes were copied and aborts it otherwise.
   * The result is the copy's error; the finish's own error is dropped.
   */
  method Copy(c: Connect, key: string, size: uint64, data: seq<byte>) returns (err: Outcome)
    modifies c
    ensures Call.StreamNew in c.fails ==>
              err == Some(ErrorOf(c.fails[Call.StreamNew])) && c.store == old(c.store) &&
              c.trace == old(c.trace) + [Call.StreamNew]
    ensures Call.StreamNew !in c.fails ==>
              c.trace == old(c.trace) + [Call.StreamNew, Call.VolUpload(key), Call.StreamSend(key),
                                         if old(Copied(c, key, data)) == size then Call.StreamFinish(key)
                                         else Call.StreamAbort(key)]
    ensures Call.StreamNew !in c.fails && old(SendAnswer(c, key, data)).Err? ==>
              err == Some(old(SendAnswer(c, key, data)).error)
    ensures Call.StreamNew !in c.fails && old(SendAnswer(c, key, data)).Ok? ==> err == None
    ensures c.store == if Call.StreamNew !in c.fails && old(Copied(c, key, data)) == size
                          && key in old(c.store.volumes) && Call.StreamFinish(key) !in c.fails
                       then old(c.store).(volumes := old(c.store.volumes)[key := old(c.store.volumes)[key].(content := data)])
                       else old(c.store)
  {
    var e := c.StreamNew();
    if e.Some? {
      return e;
    }
    var copied := Copied(c, key, data);
    var _ := c.VolUpload(key);
    var sent := c.StreamSend(key, data);
    err := if sent.Err? then Some(sent.error) else None;
    if copied != size {
      var _ := c.StreamAbort(key);
    } else {
      var _ := c.StreamFinish(key, data);
    }
  }

  /**
   * The content a volume that exists ends up with after the copier: the
   * image iff every stream call succeeds and the image has the declared size.
   */
  function Uploaded(c: Connect, key: string, size: uint64, data: seq<byte>): (content: seq<byte>)
  {
    if Call.StreamNew !in c.fails && Call.StreamSend(key) !in c.fails && |data| == size
       && Call.StreamFinish(key) !in c.fails
    then data else []
  }

  /** The error of an upload whose pool cannot be found. */
  function NoPoolError(pool: string): Error {
    Fail("can't find storage pool " + Quote(pool))
  }

  /** The error of an upload whose pool still failed to refresh when the retries timed out. */
  function RefreshError(e: Error): Error {
    Wrap("timeout when calling waitForSuccess", Wrap("Error refreshing pool for volume", e))
  }

  /**
   * The steps every upload starts with: the pool is looked up ("can't find
   * storage pool" when that fails) and refreshed, retrying until the timeout.
   */
  method RefreshPool(c: Connect, pool: string) returns (err: Outcome)
    modifies c
    ensures c.store == old(c.store)
    ensures c.Effect(Call.PoolLookupByName(pool), pool in c.pools, NoStoragePool).Some? ==>
              err == Some(NoPoolError(pool))
    ensures pool in c.pools && Call.PoolLookupByName(pool) !in c.fails && Call.PoolRefresh(pool) in c.fails ==>
              err == Some(RefreshError(ErrorOf(c.fails[Call.PoolRefresh(pool)])))
    ensures err.None? <==> pool in c.pools && Call.PoolLookupByName(pool) !in c.fails && Call.PoolRefresh(pool) !in c.fails
  {
    err := c.PoolLookupByName(pool);
    if err.Some? {
      return Some(NoPoolError(pool));
    }
    err := c.PoolRefresh(pool);
    err := Retry("Error refreshing pool for volume", err);
    if err.Some? {
      return Some(Wrap("timeout when calling waitForSuccess", err.value));
    }
  }

  /**
   * The steps every upload ends with: the volume is created in the pool
   * (`createMsg` names it in the error), the image is copied into it
   * (`uploadMsg` and the image's location name it in the error) and its key
   * is read back.
   */
  method CreateAndCopy(c: Connect, pool: string, def: VolumeDef, img: Image, createMsg: string, uploadMsg: string)
    returns (r: Result<string>)
    modifies c
    requires pool in c.pools
    ensures r.Ok? ==> r.value == c.KeyIn(pool, def.name) && r.value !in old(c.store.volumes)
    ensures r.Ok? ==> c.store.volumes == old(c.store.volumes)[r.value := Volume(pool, def, 0,
                        Uploaded(c, r.value, def.capacity.value, img.data))]
    ensures c.store.domains == old(c.store.domains) && c.store.networks == old(c.store.networks)
  {
    var created := c.VolCreateXML(pool, def);
    if created.Err? {
      return Err(Wrap(createMsg + def.name, created.error));
    }
    var key := created.value;
    var e := Copy(c, key, def.capacity.value, img.data);
    if e.Some? {
      return Err(Wrap(uploadMsg + img.location, e.value));
    }
    var k := c.VolGetKey(key);
    if k.Err? {
      return Err(Wrap("Error retrieving volume key", k.error));
    }
    return Ok(k.value);
  }

  /**
   * `uploadVolume(poolName, client, volumeDef, img)`: finds the pool, refreshes
   * it (retrying), creates the volume, uploads the image through the copier
   * and returns the new volume's key.
   */
  method UploadVolume(c: Connect, pool: string, def: VolumeDef, img: Image) returns (r: Result<string>)
    modifies c
    ensures c.Effect(Call.PoolLookupByName(pool), pool in c.pools, NoStoragePool).Some? ==>
              r == Err(NoPoolError(pool)) && c.store == old(c.store)
    ensures pool in c.pools && Call.PoolLookupByName(pool) !in c.fails && Call.PoolRefresh(pool) in c.fails ==>
              r == Err(RefreshError(ErrorOf(c.fails[Call.PoolRefresh(pool)])))
              && c.store == old(c.store)
    ensures r.Ok? ==> pool in c.pools && r.value == c.KeyIn(pool, def.name) && r.value !in old(c.store.volumes)
    ensures r.Ok? ==> c.store.volumes == old(c.store.volumes)[r.value := Volume(pool, def, 0,
                        Uploaded(c, r.value, def.capacity.value, img.data))]
    ensures c.store.domains == old(c.store.domains) && c.store.networks == old(c.store.networks)
  {
    var e := RefreshPool(c, pool);
    if e.Some? {
      return Err(e.value);
    }
    r := CreateAndCopy(c, pool, def, img, "Error creating libvirt volume for device ", "Error while uploading volume ");
  }
}
