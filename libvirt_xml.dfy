/**
 * The libvirt XML documents the provider builds and reads (libvirt-go-xml's
 * `Domain`, `StorageVolume`, `Network`, `Caps`), as values.  Only the elements
 * the provider sets or inspects are kept; a Go pointer field that may be nil
 * is an `Option`.  XML (un)marshalling itself is not modelled: a document is
 * its value.
 */
module LibvirtXml {
  import opened Wrappers

  // ----- domains -----

  datatype OSType = OSType(osType: string, arch: string, machine: string)

  /** `<loader path=… readonly=… type=… secure=…>` */
  datatype Loader = Loader(path: string, readOnly: string, loaderType: string, secure: string)

  /** `<nvram template=…>file</nvram>` */
  datatype NVRam = NVRam(file: string, template: string)

  datatype DomainOS = DomainOS(osType: OSType, loader: Option<Loader>, nvram: Option<NVRam>)

  datatype Memory = Memory(value: uint64, unit: string)

  datatype VCPU = VCPU(placement: string, value: int64)

  /**
   * A `<disk>`: `device`, the `<source file=…>` (None when the source is not
   * initialised), the `<target dev=… bus=…>`, the `<driver name=… type=…>`,
   * whether `<readonly/>` is present, and the `<serial>`.
   */
  datatype Disk = Disk(device: string, source: Option<string>, targetDev: string, targetBus: string,
                       driverName: string, driverType: string, readOnly: bool, serial: string)

  /** An `<interface>`: its `<model type=…>`, `<mac address=…>` and `<source network=…>`. */
  datatype Interface = Interface(model: string, mac: Option<string>, network: Option<string>)

  /** A `<graphics type='spice' autoport=…>` device. */
  datatype Graphic = Spice(autoPort: string)

  /** A `<console type='pty'>` with its `<target type=… port=…>`. */
  datatype Console = Console(targetType: string, port: nat)

  /**
   * The `<devices>` list: the emulator, the disks and interfaces the provider
   * appends, the guest-agent channel names, the RNG models, the consoles and
   * the graphics devices.
   */
  datatype Devices = Devices(emulator: string, disks: seq<Disk>, interfaces: seq<Interface>,
                             channels: seq<string>, rngs: seq<string>, consoles: seq<Console>,
                             graphics: seq<Graphic>)

  /**
   * A `<domain>`.  `qemuArgs` is the `<qemu:commandline>` element: None while
   * `QEMUCommandline` is nil, otherwise the values of its `<qemu:arg>`s.
   */
  datatype DomainDef = DomainDef(domainType: string, name: string, os: DomainOS, memory: Memory,
                                 vcpu: VCPU, cpuMode: string, devices: Devices, features: seq<string>,
                                 qemuArgs: Option<seq<string>>)

  /** The name of the guest-agent channel every generation adds. */
  const GuestAgentChannel := "org.qemu.guest_agent.0"

  /**
   * The domain type: the value of TERRAFORM_LIBVIRT_TEST_DOMAIN_TYPE when that
   * variable is set and non-empty (`domainTypeEnv`), "kvm" otherwise.
   */
  function DomainType(domainTypeEnv: string): (t: string)
    ensures domainTypeEnv == "" ==> t == "kvm"
    ensures domainTypeEnv != "" ==> t == domainTypeEnv
  {
    if domainTypeEnv != "" then domainTypeEnv else "kvm"
  }

  /**
   * The skeleton every generation starts from: an hvm OS, 512 MiB, one static
   * vCPU, an empty CPU, the PAE/ACPI/APIC features and the given devices.
   */
  function BaseDomainDef(domainTypeEnv: string, devices: Devices): (d: DomainDef)
    ensures d.os.osType == OSType("hvm", "", "") && d.os.loader == None && d.os.nvram == None
    ensures d.memory == Memory(512, "MiB") && d.vcpu == VCPU("static", 1) && d.cpuMode == ""
    ensures d.devices == devices && d.name == "" && d.qemuArgs == None
    ensures d.features == ["pae", "acpi", "apic"] && d.domainType == DomainType(domainTypeEnv)
  {
    DomainDef(DomainType(domainTypeEnv), "", DomainOS(OSType("hvm", "", ""), None, None),
              Memory(512, "MiB"), VCPU("static", 1), "", devices, ["pae", "acpi", "apic"], None)
  }

  /**
   * The fixed devices of the older generations: the guest-agent channel, a
   * virtio RNG, a virtio console on port 0 and, always, SPICE graphics.
   */
  function FixedDevices(): (ds: Devices)
    ensures ds.channels == [GuestAgentChannel] && ds.rngs == ["virtio"]
    ensures ds.consoles == [Console("virtio", 0)] && ds.graphics == [Spice("yes")]
    ensures ds.disks == [] && ds.interfaces == [] && ds.emulator == ""
  {
    Devices("", [], [], [GuestAgentChannel], ["virtio"], [Console("virtio", 0)], [Spice("yes")])
  }

  // ----- host capabilities -----

  datatype CapsMachine = CapsMachine(name: string, canonical: string)

  /** A `<guest>`: its `<os_type>` and its `<arch name=…>` with emulator and machines. */
  datatype CapsGuest = CapsGuest(osType: string, archName: string, emulator: string, machines: seq<CapsMachine>)

  /** `<capabilities>`: the `<host><cpu><arch>` and the guests. */
  datatype Caps = Caps(hostArch: string, guests: seq<CapsGuest>)

  // ----- storage volumes -----

  datatype Capacity = Capacity(unit: string, value: uint64)

  datatype BackingStore = BackingStore(path: string, format: string)

  /** A `<volume>`: name, target format, target permissions mode, capacity, backing store. */
  datatype VolumeDef = VolumeDef(name: string, format: string, mode: string, capacity: Capacity,
                                 backing: Option<BackingStore>)

  // ----- networks -----

  datatype NatPorts = NatPorts(start: nat, end: nat)

  /** `<forward mode=…>` with its optional `<nat><port start end/></nat>`. */
  datatype Forward = Forward(mode: string, natPorts: Option<NatPorts>)

  datatype Bridge = Bridge(name: string, stp: string)

  datatype DHCPRange = DHCPRange(start: string, end: string)

  /** An `<ip address=… prefix=… family=…>` with its optional `<dhcp><range/></dhcp>`. */
  datatype NetworkIP = NetworkIP(address: string, prefix: nat, family: string, dhcp: Option<seq<DHCPRange>>)

  /** A `<network>`. */
  datatype NetworkDef = NetworkDef(name: string, domain: Option<string>, bridge: Option<Bridge>,
                                   forward: Option<Forward>, ips: seq<NetworkIP>)

  /** A static `<host ip=… mac=… name=…>` entry of a network's DHCP section. */
  datatype DHCPHost = DHCPHost(ip: string, mac: string, name: string)

  /** A DHCP lease as libvirt reports it; `hostnames` is libvirt's optional (possibly empty) hostname. */
  datatype Lease = Lease(ipaddr: string, mac: string, hostnames: seq<string>)

  /** libvirt domain states (`virDomainState`). */
  const NoState := 0
  const Running := 1
  const Blocked := 2
  const Paused := 3
  const Shutdown := 4
  const Shutoff := 5
  const Crashed := 6
  const PMSuspended := 7
}
