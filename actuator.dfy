// The machine actuator: the Create, Delete, Update and Exists operations the
// machine controller invokes, the volume-then-domain provisioning with its
// clean-up, and the reconciliation of a machine's status.  The libvirt
// connection a call opens for the machine's URI is a `Connect` handed in,
// with `dialErr` the error opening it; the cluster API is represented by
// the list of machines whose status the actuator writes back.

module Actuator {
  import opened Wrappers
  import opened Cidr
  import opened LibvirtXml
  import opened Hypervisor
  import LegacyCloudInit
  import ClientVolume
  import UtilsDomain
  import UtilsClient
  import ClientClient

  /** The host number of the first machine's address, before the first `Create` increments it. */
  const InitialCidrOffset: int64 := 50

  /** The group/version the provider status is registered under, and its kind. */
  const StatusAPIVersion := "libvirtproviderconfig/v1alpha1"
  const StatusKind := "LibvirtMachineProviderStatus"

  /**
   * The fields of the decoded machine provider config the actuator reads.
   * `networkCIDR` is what `net.ParseCIDR` makes of `networkInterfaceAddress`.
   */
  datatype ProviderConfig = ProviderConfig(
    uri: string, baseVolumeID: string, poolName: string, ignKey: string,
    networkInterfaceName: string, networkInterfaceAddress: string, networkCIDR: Option<IPNet>,
    autostart: bool, domainMemory: int64, domainVcpu: int64,
    cloudInit: Option<LegacyCloudInit.CloudInitConfig>)

  /** `LibvirtMachineProviderStatus`: its type metadata, the instance's ID and its state name. */
  datatype ProviderStatus = ProviderStatus(apiVersion: string, kind: string,
                                           instanceID: Option<string>, instanceState: Option<string>)

  /**
   * The status of a machine: the raw provider status (absent, or what
   * decoding it gives), the node addresses and the time of the last update.
   */
  datatype MachineStatus = MachineStatus(providerStatus: Option<Result<ProviderStatus>>,
                                         addresses: seq<UtilsDomain.NodeAddress>, lastUpdated: Option<int>)

  /**
   * A machine: its name and namespace, its provider config (absent when the
   * spec has no value, else what decoding it gives) and its status.
   */
  datatype Machine = Machine(name: string, namespace: string, providerConfig: Option<Result<ProviderConfig>>,
                             status: MachineStatus)

  /** `errorWrapper.Error(err, message)`: the error prefixed with cluster, machine and message. */
  function MachineError(cluster: string, machine: string, message: string, err: Error): (e: Error)
    ensures Message(e) == cluster + "/" + machine + ": " + message + ": " + Message(err)
  {
    Wrap(cluster + "/" + machine + ": " + message, err)
  }

  /** `machineProviderConfigFromClusterAPIMachineSpec`: a spec without a value is an error. */
  function ConfigOf(m: Machine): (r: Result<ProviderConfig>)
    ensures m.providerConfig.None? ==> r == Err(Fail("no Value in ProviderConfig"))
    ensures m.providerConfig.Some? ==> r == m.providerConfig.value
  {
    if m.providerConfig.None? then Err(Fail("no Value in ProviderConfig")) else m.providerConfig.value
  }

  /**
   * The failure of `clientForMachine`: the config's, wrapped, or else that
   * of connecting to its URI.
   */
  function ClientError(m: Machine, dialErr: Outcome): (e: Outcome)
    ensures ConfigOf(m).Err? ==> e == Some(Wrap("error getting machineProviderConfig from spec", ConfigOf(m).error))
    ensures ConfigOf(m).Ok? ==> e == dialErr
  {
    match ConfigOf(m)
    case Err(c) => Some(Wrap("error getting machineProviderConfig from spec", c))
    case Ok(_) => dialErr
  }

  /** `x++` on Go's 64-bit `int`, which wraps from the largest value to the smallest. */
  function NextOffset(x: int64): (y: int64)
    ensures x < TwoTo63 - 1 ==> y == x + 1
    ensures x == TwoTo63 - 1 ==> y == -TwoTo63
  {
    if x == TwoTo63 - 1 then -TwoTo63 else x + 1
  }

  /** The offset after `n` machines got a client: `n` increments from the initial 50. */
  function OffsetAfter(n: nat): int64 {
    if n == 0 then InitialCidrOffset else NextOffset(OffsetAfter(n - 1))
  }

  /** The `n`-th machine created (counting from 1) gets host number 50 + n. */
  lemma {:induction false} OffsetAfterIs(n: nat)
    requires n < TwoTo63 - 1 - 50
    ensures OffsetAfter(n) == 50 + n
  {
    if n > 0 {
      OffsetAfterIs(n - 1);
    }
  }

  /** Two machines created at different points get different host numbers. */
  lemma OffsetsDiffer(i: nat, j: nat)
    requires i < j < TwoTo63 - 1 - 50
    ensures OffsetAfter(i) != OffsetAfter(j)
  {
    OffsetAfterIs(i);
    OffsetAfterIs(j);
  }

  // ----- provisioning -----

  /** The volume the actuator creates for a machine: named after it, qcow2, on the configured base. */
  function VolumeInput(name: string, cfg: ProviderConfig): UtilsClient.CreateVolumeInput {
    UtilsClient.CreateVolumeInput(name, cfg.poolName, cfg.baseVolumeID, "", "qcow2")
  }

  /**
   * The domain the actuator creates for a machine: named after it, on the
   * volume named after it, with the machine's name as host name and `offset`
   * as host number.
   */
  function DomainArgs(m: Machine, cfg: ProviderConfig, offset: int64): UtilsDomain.CreateDomainArgs {
    UtilsDomain.CreateDomainArgs(m.name, cfg.ignKey, m.name, m.name, cfg.networkInterfaceName,
                                 cfg.networkInterfaceAddress, cfg.networkCIDR, cfg.autostart,
                                 cfg.domainMemory, cfg.domainVcpu, offset, cfg.cloudInit, m.namespace)
  }

  /** The backing store the machine's volume gets from its configured base volume. */
  function BaseBacking(c: Connect, m: Machine): BackingStore
    reads c`store
  {
    if ConfigOf(m).Ok? then UtilsClient.BackingOf(c, ConfigOf(m).value.baseVolumeID) else BackingStore("", "")
  }

  /**
   * What a successful provisioning leaves: the machine's volume added to
   * the volumes `before`, and its domain running, defined as `CreateDomain`
   * defines it for the machine's arguments.
   */
  ghost predicate Provisioned(c: Connect, before: map<string, Volume>, backing: BackingStore, m: Machine, offset: int64,
                              w: UtilsDomain.World)
    reads c`store
  {
    ConfigOf(m).Ok? &&
    var cfg := ConfigOf(m).value;
    var args := DomainArgs(m, cfg, offset);
    cfg.poolName in c.pools &&
    var key := c.KeyIn(cfg.poolName, m.name);
    key !in before &&
    c.store.volumes == before[key := Volume(cfg.poolName, UtilsClient.DefFor(VolumeInput(m.name, cfg), 0, backing), 0, [])] &&
    UtilsDomain.HostDef(c.caps, w.domainTypeEnv).Ok? && m.name in c.store.domains &&
    c.store.domains[m.name].state == Running && c.store.domains[m.name].autostart == cfg.autostart &&
    UtilsDomain.Dressed(args, w.secrets, UtilsDomain.HostDef(c.caps, w.domainTypeEnv).value, c.store.domains[m.name].def)
  }

  /**
   * The domain step of `createVolumeAndDomain`: when `CreateDomain` fails,
   * the machine's volume is deleted (that outcome, `cleanupErr`, is only
   * logged) and the domain error returned.
   */
  method DomainOrCleanup(c: Connect, args: UtilsDomain.CreateDomainArgs, w: UtilsDomain.World)
    returns (domainErr: Outcome, ghost cleanupErr: Outcome)
    requires |w.macBytes| == 6
    modifies c
    ensures domainErr.None? ==>
              c.store.volumes == old(c.store.volumes) &&
              args.name in c.store.domains && c.store.domains[args.name].state == Running &&
              c.store.domains[args.name].autostart == args.autostart &&
              UtilsDomain.HostDef(c.caps, w.domainTypeEnv).Ok? &&
              UtilsDomain.Dressed(args, w.secrets, UtilsDomain.HostDef(c.caps, w.domainTypeEnv).value,
                                  c.store.domains[args.name].def)
    ensures domainErr.Some? && cleanupErr.None? ==>
              c.store.volumes == old(c.store.volumes) - {UtilsDomain.VolumeKey(args.name)}
    ensures domainErr.None? ==> cleanupErr.None?
  {
    domainErr := UtilsDomain.CreateDomain(c, args, w);
    cleanupErr := None;
    if domainErr.Some? {
      ghost var calls;
      cleanupErr, calls := UtilsClient.DeleteVolume(c, args.name);
    }
  }

  /** The volume step of `createVolumeAndDomain` and, when it succeeds, the domain step. */
  method VolumeThenDomain(m: Machine, cfg: ProviderConfig, offset: int64, c: Connect, w: UtilsDomain.World)
    returns (volumeErr: Outcome, domainErr: Outcome, ghost cleanupErr: Outcome)
    requires |w.macBytes| == 6 && ConfigOf(m) == Ok(cfg)
    modifies c
    ensures volumeErr.Some? ==> c.store.domains == old(c.store.domains) && domainErr.None?
    ensures domainErr.Some? && cleanupErr.None? && cfg.poolName in c.pools &&
            c.pools[cfg.poolName] == UtilsDomain.BaseVolumePath ==>
              c.store.volumes == old(c.store.volumes)
    ensures volumeErr.None? && domainErr.None? ==> Provisioned(c, old(c.store.volumes), old(BaseBacking(c, m)), m, offset, w)
  {
    domainErr, cleanupErr := None, None;
    volumeErr := UtilsClient.CreateVolume(c, VolumeInput(m.name, cfg), Ok(ClientVolume.Image("", [])));
    if volumeErr.Some? {
      return;
    }
    domainErr, cleanupErr := DomainOrCleanup(c, DomainArgs(m, cfg, offset), w);
  }

  /**
   * `createVolumeAndDomain(machine, offset, ...)`: the volume first, then the
   * domain on it (removing the volume again if the domain cannot be
   * created), then the domain is looked up.  `volumeErr`, `domainErr` and
   * `cleanupErr` are the outcomes of those steps.
   */
  method CreateVolumeAndDomain(m: Machine, offset: int64, c: Connect, w: UtilsDomain.World)
    returns (r: Result<string>, volumeErr: Outcome, domainErr: Outcome, ghost cleanupErr: Outcome)
    requires |w.macBytes| == 6
    modifies c
    ensures ConfigOf(m).Err? ==>
              r == Err(Wrap("error getting machineProviderConfig from spec", ConfigOf(m).error)) &&
              c.store == old(c.store) && c.trace == old(c.trace)
    ensures volumeErr.Some? ==>
              r == Err(Wrap("error creating volume", volumeErr.value)) &&
              c.store.domains == old(c.store.domains) && domainErr.None?
    ensures domainErr.Some? ==> volumeErr.None? && r == Err(Wrap("error creating domain", domainErr.value))
    ensures domainErr.Some? && cleanupErr.None? && ConfigOf(m).value.poolName in c.pools &&
            c.pools[ConfigOf(m).value.poolName] == UtilsDomain.BaseVolumePath ==>
              c.store.volumes == old(c.store.volumes)
    ensures ConfigOf(m).Ok? && volumeErr.None? && domainErr.None? ==>
              Provisioned(c, old(c.store.volumes), old(BaseBacking(c, m)), m, offset, w) &&
              (r.Ok? <==> Call.DomainLookupByName(m.name) !in c.fails) &&
              (r.Err? ==> r.error.Wrap? && r.error.context == "error looking up libvirt machine")
    ensures r.Ok? ==> r.value == m.name && ConfigOf(m).Ok? && volumeErr.None? && domainErr.None?
  {
    volumeErr, domainErr, cleanupErr := None, None, None;
    var cfg := ConfigOf(m);
    if cfg.Err? {
      return Err(Wrap("error getting machineProviderConfig from spec", cfg.error)), volumeErr, domainErr, cleanupErr;
    }
    volumeErr, domainErr, cleanupErr := VolumeThenDomain(m, cfg.value, offset, c, w);
    if volumeErr.Some? {
      return Err(Wrap("error creating volume", volumeErr.value)), volumeErr, domainErr, cleanupErr;
    }
    if domainErr.Some? {
      return Err(Wrap("error creating domain", domainErr.value)), volumeErr, domainErr, cleanupErr;
    }
    var dom := UtilsDomain.LookupDomainByName(c, m.name);
    if dom.Err? {
      return Err(Wrap("error looking up libvirt machine", dom.error)), volumeErr, domainErr, cleanupErr;
    }
    r := Ok(m.name);
  }

  // ----- status -----

  /** The provider status of a machine that has none yet: only its type metadata. */
  const EmptyStatus := ProviderStatus(StatusAPIVersion, StatusKind, None, None)

  /** `ProviderStatusFromMachine(machine)`: an absent status decodes to the empty one. */
  function ProviderStatusFromMachine(m: Machine): (r: Result<ProviderStatus>)
    ensures m.status.providerStatus.None? ==>
              r.Ok? && r.value.apiVersion == StatusAPIVersion && r.value.kind == StatusKind &&
              r.value.instanceID.None? && r.value.instanceState.None?
    ensures m.status.providerStatus.Some? ==> r == m.status.providerStatus.value
  {
    if m.status.providerStatus.None? then Ok(EmptyStatus) else m.status.providerStatus.value
  }

  /** What asking the domain `name` for its UUID answers (a domain's UUID is modelled by its name). */
  function UUIDAnswer(c: Connect, name: string): Result<string>
    reads c`store
  {
    c.Answer(Call.DomainGetUUID(name), if name in c.store.domains then Some(name) else None, NoDomain)
  }

  /** What asking the domain `name` for its state answers. */
  function StateAnswer(c: Connect, name: string): Result<int>
    reads c`store
  {
    c.Answer(Call.DomainGetState(name), if name in c.store.domains then Some(c.store.domains[name].state) else None,
             NoDomain)
  }

  /**
   * The provider status `UpdateProviderStatus` makes of `status`: no domain
   * clears the instance ID and state; a domain sets its UUID and the name of
   * its state, unless asking for either fails.  The type metadata stays.
   */
  function ProviderStatusFor(c: Connect, status: ProviderStatus, dom: Option<string>): (r: Result<ProviderStatus>)
    reads c`store
    ensures dom.None? ==> r.Ok? && r.value.instanceID.None? && r.value.instanceState.None?
    ensures r.Ok? ==> r.value.apiVersion == status.apiVersion && r.value.kind == status.kind
    ensures dom.Some? ==> (r.Ok? <==> UUIDAnswer(c, dom.value).Ok? && StateAnswer(c, dom.value).Ok?)
    ensures dom.Some? && r.Ok? ==>
              r.value.instanceID == Some(UUIDAnswer(c, dom.value).value) &&
              r.value.instanceState == Some(UtilsDomain.DomainStateString(StateAnswer(c, dom.value).value))
    ensures dom.Some? && UUIDAnswer(c, dom.value).Err? ==> r == Err(UUIDAnswer(c, dom.value).error)
    ensures dom.Some? && UUIDAnswer(c, dom.value).Ok? && StateAnswer(c, dom.value).Err? ==>
              r == Err(StateAnswer(c, dom.value).error)
  {
    if dom.None? then Ok(status.(instanceID := None, instanceState := None))
    else
      var uuid :- UUIDAnswer(c, dom.value);
      var state :- StateAnswer(c, dom.value);
      Ok(status.(instanceID := Some(uuid), instanceState := Some(UtilsDomain.DomainStateString(state))))
  }

  /**
   * Whatever its state, a readable domain is reported with its UUID and the
   * name of its state; two domains in libvirt states are reported with the
   * same state name exactly when they are in the same state.
   */
  lemma ReportedStateNames(c: Connect, status: ProviderStatus, n1: string, n2: string)
    requires n1 in c.store.domains && Call.DomainGetUUID(n1) !in c.fails && Call.DomainGetState(n1) !in c.fails
    requires n2 in c.store.domains && Call.DomainGetUUID(n2) !in c.fails && Call.DomainGetState(n2) !in c.fails
    ensures ProviderStatusFor(c, status, Some(n1)).Ok?
    ensures ProviderStatusFor(c, status, Some(n1)).value.instanceID == Some(n1)
    ensures ProviderStatusFor(c, status, Some(n1)).value.instanceState ==
              Some(UtilsDomain.DomainStateString(c.store.domains[n1].state))
    ensures NoState <= c.store.domains[n1].state <= PMSuspended && NoState <= c.store.domains[n2].state <= PMSuspended ==>
              (ProviderStatusFor(c, status, Some(n1)).value.instanceState ==
               ProviderStatusFor(c, status, Some(n2)).value.instanceState
               <==> c.store.domains[n1].state == c.store.domains[n2].state)
  {
    var s1, s2 := c.store.domains[n1].state, c.store.domains[n2].state;
    if NoState <= s1 <= PMSuspended && NoState <= s2 <= PMSuspended && s1 != s2 {
      UtilsDomain.DomainStateStringsDiffer(s1, s2);
    }
  }

  /**
   * `UpdateProviderStatus(status, dom)`: the UUID, then the state, of the
   * domain are read.  The status is returned rather than updated in place.
   */
  method UpdateProviderStatus(status: ProviderStatus, c: Connect, dom: Option<string>) returns (r: Result<ProviderStatus>)
    modifies c
    ensures c.store == old(c.store)
    ensures r == ProviderStatusFor(c, status, dom)
    ensures dom.None? ==> c.trace == old(c.trace)
  {
    if dom.None? {
      return Ok(status.(instanceID := None, instanceState := None));
    }
    var uuid := c.DomainGetUUID(dom.value);
    if uuid.Err? {
      return Err(uuid.error);
    }
    var state := c.DomainGetState(dom.value);
    if state.Err? {
      return Err(state.error);
    }
    var stateString := UtilsDomain.DomainStateString(state.value);
    r := Ok(status.(instanceID := Some(uuid.value), instanceState := Some(stateString)));
  }

  /** The node addresses `NodeAddresses` reports for `dom`. */
  function AddressesOf(c: Connect, dom: Option<string>): Result<seq<UtilsDomain.NodeAddress>>
    reads c`store
  {
    if dom.None? then Ok([])
    else match UtilsDomain.InterfacesAnswer(c, dom.value)
      case Ok(ifaces) => Ok(UtilsDomain.InternalIPs(ifaces))
      case Err(e) => Err(e)
  }

  /**
   * The status `applyMachineStatus` gives a machine: the provider status
   * (encoded), and the addresses when there are any.
   */
  function NewStatus(st: MachineStatus, status: ProviderStatus, addrs: Option<seq<UtilsDomain.NodeAddress>>): (s: MachineStatus)
    ensures s.providerStatus == Some(Ok(status)) && s.lastUpdated == st.lastUpdated
    ensures s.addresses == if addrs.Some? then addrs.value else st.addresses
  {
    st.(providerStatus := Some(Ok(status)), addresses := if addrs.Some? then addrs.value else st.addresses)
  }

  /** The machine written back to the cluster when its status changed, stamped with `now`. */
  function Applied(m: Machine, status: ProviderStatus, addrs: Option<seq<UtilsDomain.NodeAddress>>, now: int): Machine {
    m.(status := NewStatus(m.status, status, addrs).(lastUpdated := Some(now)))
  }

  /** The status written back decodes to the provider status it was made from. */
  lemma StatusRoundTrip(m: Machine, status: ProviderStatus, addrs: Option<seq<UtilsDomain.NodeAddress>>, now: int)
    ensures ProviderStatusFromMachine(Applied(m, status, addrs, now)) == Ok(status)
    ensures addrs.Some? ==> Applied(m, status, addrs, now).status.addresses == addrs.value
  {
  }

  /** Applying the same status to the machine just written back changes nothing more. */
  lemma ApplyAgainUnchanged(m: Machine, status: ProviderStatus, addrs: Option<seq<UtilsDomain.NodeAddress>>, now: int)
    ensures NewStatus(Applied(m, status, addrs, now).status, status, addrs) == Applied(m, status, addrs, now).status
  {
  }

  /** Whether the list of written machines went from `before` to `after` as `applyMachineStatus` writes. */
  predicate Written(before: seq<Machine>, after: seq<Machine>, m: Machine, status: ProviderStatus,
                    addrs: Option<seq<UtilsDomain.NodeAddress>>, now: int) {
    if NewStatus(m.status, status, addrs) == m.status then after == before
    else after == before + [Applied(m, status, addrs, now)]
  }

  /** What `updateStatus` reads before it writes: the new provider status and the addresses. */
  function Reported(c: Connect, m: Machine, dom: Option<string>): Result<(ProviderStatus, seq<UtilsDomain.NodeAddress>)>
    reads c`store
  {
    var status :- ProviderStatusFromMachine(m);
    var updated :- ProviderStatusFor(c, status, dom);
    var addrs :- AddressesOf(c, dom);
    Ok((updated, addrs))
  }

  /** The outcome of `applyMachineStatus`: none when nothing changed, else the cluster's answer. */
  function ApplyOutcome(m: Machine, status: ProviderStatus, addrs: Option<seq<UtilsDomain.NodeAddress>>,
                        updateErr: Outcome): Outcome {
    if NewStatus(m.status, status, addrs) == m.status then None else updateErr
  }

  /**
   * How the status step of `Create` and `Update` ends: the first failure
   * reading the status, or else the write of `applyMachineStatus` and its
   * outcome, wrapped with the machine's name.
   */
  predicate StatusUpdated(c: Connect, cluster: string, m: Machine, before: seq<Machine>, after: seq<Machine>, now: int,
                          updateErr: Outcome, err: Outcome)
    reads c`store
  {
    match Reported(c, m, Some(m.name))
    case Err(e) => err == Some(MachineError(cluster, m.name, "error updating machine status", e)) && after == before
    case Ok((status, addrs)) =>
      Written(before, after, m, status, Some(addrs), now) &&
      var o := ApplyOutcome(m, status, Some(addrs), updateErr);
      err == if o.None? then None else Some(MachineError(cluster, m.name, "error updating machine status", o.value))
  }

  /**
   * The actuator.  `cidrOffset` is the host number the next machine's
   * address is derived from; `updates` lists, in order, the machines whose
   * status was written to the cluster API.
   */
  class Actuator {
    var cidrOffset: int64
    var updates: seq<Machine>

    /** `NewActuator(params)`. */
    constructor ()
      ensures cidrOffset == InitialCidrOffset && updates == []
    {
      cidrOffset := InitialCidrOffset;
      updates := [];
    }

    /**
     * `applyMachineStatus(machine, status, addrs)`: the machine with the new
     * status is written, stamped with `now`, only when the status differs;
     * `updateErr` is the cluster API's answer to the write.
     */
    method ApplyMachineStatus(m: Machine, status: ProviderStatus, addrs: Option<seq<UtilsDomain.NodeAddress>>,
                              now: int, updateErr: Outcome) returns (err: Outcome)
      modifies this`updates
      ensures Written(old(updates), updates, m, status, addrs, now)
      ensures err == ApplyOutcome(m, status, addrs, updateErr)
    {
      var st := NewStatus(m.status, status, addrs);
      if st == m.status {
        return None;
      }
      updates := updates + [m.(status := st.(lastUpdated := Some(now)))];
      err := updateErr;
    }

    /**
     * `updateStatus(machine, dom)`: the provider status decoded from the
     * machine, updated from the domain, and the domain's addresses, are
     * applied to the machine; the first failure is returned as it is.
     */
    method UpdateStatus(m: Machine, c: Connect, dom: Option<string>, now: int, updateErr: Outcome) returns (err: Outcome)
      modifies this`updates, c
      ensures c.store == old(c.store)
      ensures Reported(c, m, dom).Err? ==> err == Some(Reported(c, m, dom).error) && updates == old(updates)
      ensures Reported(c, m, dom).Ok? ==>
                var (status, addrs) := Reported(c, m, dom).value;
                Written(old(updates), updates, m, status, Some(addrs), now) &&
                err == ApplyOutcome(m, status, Some(addrs), updateErr)
    {
      var status := ProviderStatusFromMachine(m);
      if status.Err? {
        return Some(status.error);
      }
      var updated := UpdateProviderStatus(status.value, c, dom);
      if updated.Err? {
        return Some(updated.error);
      }
      var addrs := UtilsDomain.NodeAddresses(c, dom);
      if addrs.Err? {
        return Some(addrs.error);
      }
      err := ApplyMachineStatus(m, updated.value, Some(addrs.value), now, updateErr);
    }

    /**
     * `Create(cluster, machine)`: with a client for the machine, the offset
     * is incremented (even when what follows fails), the volume and domain
     * are created with it, and the status is updated from the new domain.
     * `provisioning` is the outcome of `createVolumeAndDomain`.
     */
    method Create(cluster: string, m: Machine, c: Connect, dialErr: Outcome, w: UtilsDomain.World, now: int,
                  updateErr: Outcome) returns (err: Outcome, provisioning: Result<string>)
      requires |w.macBytes| == 6
      modifies this, c
      ensures ClientError(m, dialErr).Some? ==>
                err == Some(MachineError(cluster, m.name, "error creating libvirt client", ClientError(m, dialErr).value)) &&
                cidrOffset == old(cidrOffset) && updates == old(updates) &&
                c.store == old(c.store) && c.trace == old(c.trace)
      ensures ClientError(m, dialErr).None? ==> cidrOffset == NextOffset(old(cidrOffset))
      ensures ClientError(m, dialErr).None? && provisioning.Err? ==>
                err == Some(MachineError(cluster, m.name, "error creating libvirt machine", provisioning.error)) &&
                updates == old(updates)
      ensures ClientError(m, dialErr).None? && provisioning.Ok? ==>
                Provisioned(c, old(c.store.volumes), old(BaseBacking(c, m)), m, cidrOffset, w) &&
                StatusUpdated(c, cluster, m, old(updates), updates, now, updateErr, err)
    {
      provisioning := Err(Fail(""));
      var e := ClientError(m, dialErr);
      if e.Some? {
        return Some(MachineError(cluster, m.name, "error creating libvirt client", e.value)), provisioning;
      }
      cidrOffset := NextOffset(cidrOffset);
      err, provisioning := CreateMachine(cluster, m, cidrOffset, c, w, now, updateErr);
    }

    /** The part of `Create` after the offset is incremented: provisioning, then the status update. */
    method CreateMachine(cluster: string, m: Machine, offset: int64, c: Connect, w: UtilsDomain.World, now: int,
                         updateErr: Outcome) returns (err: Outcome, provisioning: Result<string>)
      requires |w.macBytes| == 6
      modifies this`updates, c
      ensures provisioning.Err? ==>
                err == Some(MachineError(cluster, m.name, "error creating libvirt machine", provisioning.error)) &&
                updates == old(updates)
      ensures provisioning.Ok? ==>
                Provisioned(c, old(c.store.volumes), old(BaseBacking(c, m)), m, offset, w) &&
                StatusUpdated(c, cluster, m, old(updates), updates, now, updateErr, err)
    {
      var volumeErr, domainErr;
      ghost var cleanupErr;
      provisioning, volumeErr, domainErr, cleanupErr := CreateVolumeAndDomain(m, offset, c, w);
      if provisioning.Err? {
        return Some(MachineError(cluster, m.name, "error creating libvirt machine", provisioning.error)), provisioning;
      }
      var e := UpdateStatus(m, c, Some(provisioning.value), now, updateErr);
      if e.Some? {
        return Some(MachineError(cluster, m.name, "error updating machine status", e.value)), provisioning;
      }
      err := None;
    }

    /**
     * `Update(cluster, machine)`: the machine's domain is looked up and the
     * status updated from it.
     */
    method Update(cluster: string, m: Machine, c: Connect, dialErr: Outcome, now: int, updateErr: Outcome)
      returns (err: Outcome)
      modifies this`updates, c
      ensures c.store == old(c.store)
      ensures ClientError(m, dialErr).Some? ==>
                err == Some(MachineError(cluster, m.name, "error creating libvirt client", ClientError(m, dialErr).value)) &&
                updates == old(updates) && c.trace == old(c.trace)
      ensures ClientError(m, dialErr).None? && UtilsDomain.DomainAnswer(c, m.name).Err? ==>
                err == Some(MachineError(cluster, m.name, "failed to look up domain by name",
                                         UtilsDomain.DomainAnswer(c, m.name).error)) &&
                updates == old(updates)
      ensures ClientError(m, dialErr).None? && UtilsDomain.DomainAnswer(c, m.name).Ok? ==>
                StatusUpdated(c, cluster, m, old(updates), updates, now, updateErr, err)
    {
      var e := ClientError(m, dialErr);
      if e.Some? {
        return Some(MachineError(cluster, m.name, "error creating libvirt client", e.value));
      }
      var dom := UtilsDomain.LookupDomainByName(c, m.name);
      if dom.Err? {
        return Some(MachineError(cluster, m.name, "failed to look up domain by name", dom.error));
      }
      e := UpdateStatus(m, c, Some(m.name), now, updateErr);
      if e.Some? {
        return Some(MachineError(cluster, m.name, "error updating machine status", e.value));
      }
      err := None;
    }
  }

  // ----- deletion and existence -----

  /**
   * `deleteVolumeAndDomain(machine)`: the domain, then the volume, stopping
   * at the first failure.  `domainErr` and `volumeErr` are the steps'
   * outcomes.
   */
  method DeleteVolumeAndDomain(m: Machine, c: Connect) returns (err: Outcome, domainErr: Outcome, volumeErr: Outcome)
    modifies c
    ensures c.store.networks == old(c.store.networks)
    ensures m.name !in old(c.store.domains) ==> domainErr.Some? && c.store == old(c.store)
    ensures domainErr.Some? ==>
              err == Some(Wrap("error deleting domain", domainErr.value)) && volumeErr.None? &&
              c.store.volumes == old(c.store.volumes)
    ensures domainErr.None? && volumeErr.Some? ==>
              err == Some(Wrap("error deleting volume", volumeErr.value)) &&
              c.store.domains == old(c.store.domains) - {m.name}
    ensures domainErr.None? && !old(UtilsClient.PathFound(c, UtilsDomain.VolumeKey(m.name))) ==>
              volumeErr == Some(VolumeNotFound)
    ensures err.None? <==> domainErr.None? && volumeErr.None?
    ensures err.None? ==>
              m.name in old(c.store.domains) && UtilsDomain.VolumeKey(m.name) in old(c.store.volumes) &&
              c.store.domains == old(c.store.domains) - {m.name} &&
              c.store.volumes == old(c.store.volumes) - {UtilsDomain.VolumeKey(m.name)}
  {
    volumeErr := None;
    ghost var calls;
    domainErr, calls := UtilsDomain.DeleteDomain(c, m.name);
    if domainErr.Some? {
      return Some(Wrap("error deleting domain", domainErr.value)), domainErr, volumeErr;
    }
    volumeErr, calls := UtilsClient.DeleteVolume(c, m.name);
    if volumeErr.Some? {
      return Some(Wrap("error deleting volume", volumeErr.value)), domainErr, volumeErr;
    }
    err := None;
  }

  /** `Delete(cluster, machine)`: with a client, `deleteVolumeAndDomain`, its error returned as it is. */
  method Delete(cluster: string, m: Machine, c: Connect, dialErr: Outcome) returns (err: Outcome)
    modifies c
    ensures ClientError(m, dialErr).Some? ==>
              err == Some(MachineError(cluster, m.name, "error creating libvirt client", ClientError(m, dialErr).value)) &&
              c.store == old(c.store) && c.trace == old(c.trace)
    ensures ClientError(m, dialErr).None? && m.name !in old(c.store.domains) ==>
              err.Some? && c.store == old(c.store)
    ensures err.None? ==>
              m.name in old(c.store.domains) &&
              c.store == old(c.store).(domains := old(c.store.domains) - {m.name},
                                       volumes := old(c.store.volumes) - {UtilsDomain.VolumeKey(m.name)})
  {
    var e := ClientError(m, dialErr);
    if e.Some? {
      return Some(MachineError(cluster, m.name, "error creating libvirt client", e.value));
    }
    var domainErr, volumeErr;
    err, domainErr, volumeErr := DeleteVolumeAndDomain(m, c);
  }

  /** `Exists(cluster, machine)`: with a client, whether the machine's domain can be looked up. */
  method Exists(cluster: string, m: Machine, c: Connect, dialErr: Outcome) returns (exists_: bool, err: Outcome)
    modifies c
    ensures c.store == old(c.store)
    ensures ClientError(m, dialErr).Some? ==>
              !exists_ && c.trace == old(c.trace) &&
              err == Some(MachineError(cluster, m.name, "error creating libvirt client", ClientError(m, dialErr).value))
    ensures ClientError(m, dialErr).None? ==>
              (exists_ <==> UtilsDomain.DomainAnswer(c, m.name).Ok?) &&
              (err.None? <==> UtilsDomain.DomainAnswer(c, m.name).Ok? ||
                              ClientClient.IsNotFound(UtilsDomain.DomainAnswer(c, m.name).error))
    ensures ClientError(m, dialErr).None? && Call.DomainLookupByName(m.name) !in c.fails ==>
              err == None && (exists_ <==> m.name in c.store.domains)
  {
    var e := ClientError(m, dialErr);
    if e.Some? {
      return false, Some(MachineError(cluster, m.name, "error creating libvirt client", e.value));
    }
    exists_, err := UtilsDomain.DomainExists(c, m.name);
  }
}
