# cluster-api-provider-libvirt, modelled in Dafny

This project models the provisioning core of the OpenShift libvirt machine
provider for the Kubernetes Cluster API. It covers the logic that turns a
libvirt machine specification into a running domain: the domain, volume and
network definitions, the bootstrap artifacts (Ignition, cloud-init, the
s390x guestfish injection), address allocation, and the actuator that
creates, updates, deletes and reports on machines. The repository carries
three generations of this logic, and each is modelled from its own code:

- the newest client, `pkg/cloud/libvirt/client`, in the `Client*` modules;
- the middle machine helpers, `pkg/cloud/libvirt/actuators/machine/utils`, in the `Utils*` modules;
- the oldest machine helpers, `cloud/libvirt/actuators/machine/utils`, in the `Legacy*` modules.

A helper that a later or earlier generation repeats word for word is
modelled once and reused.

The libvirt daemon is the class `Hypervisor.Connect`:
- an abstract store of domains, volumes, pools and networks;
- the host capabilities;
- a fixed map `fails` of the calls that fail and the libvirt error each one fails with;
- a `trace` of every call made.

Operations that change hypervisor state are methods on that store. Each
states its new store and, where the order of calls matters, the calls it
made. Definitions (libvirt XML documents) are datatypes in `LibvirtXml`.
A definition that the Go code edits in place is the field of the class
`ClientDomain.Domain`. Kubernetes secrets are a value in `Kube`. The
actuator is a class holding its CIDR offset and the machines it wrote back
to the cluster.

Other shared modules:
- `Cidr`: IP arithmetic;
- `Base64`: RFC 4648, section 4;
- `Strs`: Go's `strings`/`strconv` subset;
- `ConnectionUri`: the vendored libvirt connection URI helpers.

Pure logic such as disk letters, `GenerateIP`, the cloud-init templates,
chunking and the URI split is functions with lemmas. Loops and in-place
updates are methods with loop invariants, proved against those functions.

## Model

| member | source | states |
|---|---|---|
| Wrappers.ToUint64 | lib/cidr/cidr.go:34-36 | `uint64(x)` is `x` modulo 2^64: unchanged when in range, `x + 2^64` for a negative `x` |
| Wrappers.ToInt64 | lib/cidr/cidr.go:37 | `int(x)` of a uint64 is its two's-complement reading, and converting back gives `x` |
| Base64.Encode | pkg/cloud/libvirt/client/cloudinit.go:206-208 | the standard encoding of n bytes is 4 * ceil(n / 3) characters long |
| Base64.EncodeAlphabet | pkg/cloud/libvirt/client/cloudinit.go:206-208 | every character of the encoding is one of the 64 alphabet characters or the '=' padding |
| Base64.DecodeEncode | pkg/cloud/libvirt/client/cloudinit.go:236-240 | the guest's `base64 -d` gives back exactly the encoded user-data script |
| Cidr.MaxHostNum | lib/cidr/cidr.go:29-32 | the largest host number is 2^hostLen - 1 computed in uint64, 2^64 - 1 once the shift reaches 64 |
| Cidr.GenerateIP | lib/cidr/cidr.go:25-50 | succeeds iff the host index is at most the largest host number; the result is 4 or 16 bytes; the error text names prefix length and host number |
| Cidr.GenerateIPInserts | lib/cidr/cidr.go:34-49 | a success, read as a big-endian number, is the base address's value plus the host number (num, or max - (-num - 1)), modulo 2 to the power of the address width |
| Cidr.GenerateIPNonNegative | lib/cidr/cidr.go:34-42 | a non-negative host number succeeds iff it is at most the maximum, and the address value is base + num |
| Cidr.GenerateIPFromTop | lib/cidr/cidr.go:35-42 | host number -k succeeds iff k - 1 is at most the maximum, and then it is max - (k - 1) |
| Cidr.GenerateIPWidth | lib/cidr/cidr.go:43-48 | an IPv4 base gives a 4-byte address, any other a 16-byte one |
| Cidr.GenerateIPExample | lib/cidr/cidr.go:21-24 | 10.3.0.0/16 with host number 2 gives 10.3.0.2 |
| Cidr.InsertNumIntoIP | lib/cidr/cidr.go:49 | the inserted address is bitlength/8 bytes wide and holds (base + num) modulo 2^bitlength |
| ClientVolume.WaitForSuccess | pkg/cloud/libvirt/client/volume.go:29-44 | returns nil at the first succeeding attempt; otherwise sleeps and gives up with "msg: err" once more than the timeout has passed |
| ClientVolume.Retry | pkg/cloud/libvirt/client/volume.go:30-44 | a call whose outcome never changes succeeds at once or fails after the timeout with the message wrapped around the error |
| ClientVolume.RetryAttempts | pkg/cloud/libvirt/client/volume.go:24-27 | a permanently failing call is tried 301 times with a one-second sleep and a five-minute timeout |
| ClientVolume.NewDefVolume | pkg/cloud/libvirt/client/volume.go:46-62 | name as given, format qcow2, mode 644, capacity 1 byte, no backing store |
| ClientVolume.NewDefBackingStoreFromLibvirt | pkg/cloud/libvirt/client/volume.go:64-96 | the backing store's path is the base volume's path and its format the base's target format; each lookup failure has its own message |
| ClientVolume.Unix | pkg/cloud/libvirt/client/volume.go:117 | `time.Unix` keeps nanoseconds below 1e9, leaves an in-range pair unchanged and otherwise carries them into the seconds without changing the instant |
| ClientVolume.TimeFromEpoch | pkg/cloud/libvirt/client/volume.go:108-118 | the nanoseconds are read only when the text has exactly two '.'-parts; unreadable parts count as 0 |
| ClientVolume.TimeFromEpochOfDecimal | pkg/cloud/libvirt/client/volume.go:108-118 | the text "s.ns" of a timestamp reads back as that timestamp |
| ClientVolume.TimeFromEpochSeconds | pkg/cloud/libvirt/client/volume.go:111-115 | without a '.' the whole text is the seconds and the nanoseconds are 0 |
| ClientVolume.TimeFromEpochManyParts | pkg/cloud/libvirt/client/volume.go:111-114 | with three or more parts the nanoseconds are 0 |
| ClientVolume.TimeFromEpochUnreadable | pkg/cloud/libvirt/client/volume.go:113-115 | a part `strconv.Atoi` rejects counts as 0: "x.5" is 0 s and 5 ns |
| ClientVolume.SendAnswer | pkg/cloud/libvirt/client/volume.go:186 | `io.Copy` reports the bytes sent or the stream's error |
| ClientVolume.Copy | pkg/cloud/libvirt/client/volume.go:164-194 | the copier opens a stream, uploads, copies; it finishes the stream iff the bytes copied equal the declared size, else aborts it |
| ClientVolume.RefreshPool | pkg/cloud/libvirt/client/volume.go:121-137 | an unknown pool fails with "can't find storage pool", a refresh that keeps failing with the timeout error; otherwise nothing changes |
| ClientVolume.CreateAndCopy | pkg/cloud/libvirt/client/volume.go:143-161 | creates the volume, uploads the image and returns the volume's key; each step's failure has its own message |
| ClientVolume.UploadVolume | pkg/cloud/libvirt/client/volume.go:120-162 | pool lookup, refresh, create, upload, key, stopping at the first failure; on success the new volume holds the image |
| ClientNetwork.HasDHCPModes | pkg/cloud/libvirt/client/network.go:15-19 | of the four network modes, exactly NAT and routed networks have a libvirt DHCP server |
| ClientNetwork.HasDHCPWithoutForward | pkg/cloud/libvirt/client/network.go:47-55 | a network without a forward element has no DHCP server |
| ClientNetwork.UpdateOrAddHost | pkg/cloud/libvirt/client/network.go:57-64 | modify first; add only when modify failed with ERR_OPERATION_INVALID, otherwise modify's outcome unchanged; a failure changes nothing; on success only that network's host list changes: the entry with that MAC is replaced by the new host, or, after ERR_OPERATION_INVALID, the host is appended; every other network, domain and volume is unchanged |
| ClientNetwork.ParseFormatMac | pkg/cloud/libvirt/client/network.go:121-122 | the formatted MAC is six two-digit lower-case hex groups joined by ':' that read back as the six bytes |
| ClientNetwork.RandomMACAddress | pkg/cloud/libvirt/client/network.go:103-123 | a read error is returned; otherwise bytes 2-6 are the random ones and byte 1 has bit 1 set, bit 0 clear, is never 0xfe (0xfe becomes 0xee) and keeps its high six bits |
| ClientNetwork.LeaseIPs | pkg/cloud/libvirt/client/network.go:128-130 | the set of the leases' addresses: every lease's address and nothing else |
| ClientNetwork.Leases.constructor | pkg/cloud/libvirt/client/network.go:23-27 | the reserved-lease map starts as given |
| ClientNetwork.Leases.FillReservedLeases | pkg/cloud/libvirt/client/network.go:125-132 | every lease's address becomes a key mapped to ""; other keys keep their values |
| ClientDomain.DevicesFor | pkg/cloud/libvirt/client/domain.go:71-123 | guest-agent channel, virtio RNG and console always; SPICE graphics iff the architecture starts with neither "s390" nor "ppc64" |
| ClientDomain.GetHostArchitecture | pkg/cloud/libvirt/client/domain.go:125-146 | one capabilities query; its failure is returned, else the host CPU architecture |
| ClientDomain.NewDevicesDef | pkg/cloud/libvirt/client/domain.go:71-78 | an architecture that cannot be read is taken as "", and the devices follow it |
| ClientDomain.FindGuest | pkg/cloud/libvirt/client/domain.go:162-168 | the index of the first guest matching architecture and OS type, none if no guest matches |
| ClientDomain.GuestForArchType | pkg/cloud/libvirt/client/domain.go:161-170 | Ok iff some guest matches, and then the first matching one; otherwise "Could not find any guests for architecure type" |
| ClientDomain.FindMachine | pkg/cloud/libvirt/client/domain.go:179-186 | the index of the first machine with the target name, none if there is no such machine |
| ClientDomain.CanonicalMachineName | pkg/cloud/libvirt/client/domain.go:172-188 | the guest error as it is; the first machine named `target` by its canonical name if non-empty, else its name; an error naming the machine otherwise |
| ClientDomain.CanonicalOfFirstMachine | pkg/cloud/libvirt/client/domain.go:210-218 | looking up the guest's first machine by its own name always succeeds |
| ClientDomain.NewDomainDefForConnection | pkg/cloud/libvirt/client/domain.go:190-220 | architecture, capabilities, guest, canonical machine in that order, each failure returned; on success the skeleton has the host's devices, the arch, the guest's emulator and the canonical first machine |
| ClientDomain.DiskLetter | pkg/cloud/libvirt/client/domain.go:283 | the r-th lower-case letter |
| ClientDomain.DiskLetterForIndex | pkg/cloud/libvirt/client/domain.go:287-299 | a non-empty string of lower-case letters |
| ClientDomain.DiskIndexOfLetters | pkg/cloud/libvirt/client/domain.go:287-299 | every index reads back from its letters (bijective base 26) |
| ClientDomain.DiskLettersOfIndex | pkg/cloud/libvirt/client/domain.go:287-299 | every non-empty lower-case string is the letters of some index |
| ClientDomain.DiskLetterInjective | pkg/cloud/libvirt/client/domain.go:287-299 | different indices get different letters |
| ClientDomain.DiskLetterExamples | pkg/cloud/libvirt/client/domain.go:287-299 | 0 is "a", 25 "z", 26 "aa", 27 "ab", 701 "zz", 702 "aaa" |
| ClientDomain.NewDefDisk | pkg/cloud/libvirt/client/domain.go:268-281 | a qcow2 virtio disk without source, device "vd" followed by the letters of i |
| ClientDomain.RandomWWN | pkg/cloud/libvirt/client/domain.go:300-307 | "05abcd" followed by `strlen` characters of "abcdef0123456789", the i-th chosen by the i-th random pick |
| ClientDomain.FwCfgArgs | pkg/cloud/libvirt/client/domain.go:253-263 | exactly the two arguments "-fw_cfg" and "name=opt/com.coreos/config,file=<file>" |
| ClientDomain.WithFirmware | pkg/cloud/libvirt/client/domain.go:464-479 | no firmware leaves the OS element as is; a firmware adds a read-only pflash loader, and the NVRAM only when one is given |
| ClientDomain.Hostname | pkg/cloud/libvirt/client/domain.go:389-392 | the given host name, or the domain name when none is given |
| ClientDomain.TakenStep | pkg/cloud/libvirt/client/domain.go:403-412 | one more taken address extends the run of taken host numbers from 51 |
| ClientDomain.AllocateIP | pkg/cloud/libvirt/client/domain.go:400-412 | host numbers from 51 up are tried until an address is not a reserved key; all skipped ones are taken; a generation error stops with "failed to generate ip" |
| ClientDomain.LookupNetwork | pkg/cloud/libvirt/client/domain.go:373-386 | network by name, its name, its definition; Ok iff the network exists and reads, each failure with its own message |
| ClientDomain.ReserveHost | pkg/cloud/libvirt/client/domain.go:400-422 | the first free address from host 51 becomes a reserved key and the static DHCP host of the network; the lease map changes by that reservation or not at all; no other network changes |
| ClientDomain.JoinNetwork | pkg/cloud/libvirt/client/domain.go:370-450 | a successful join of a DHCP network means an address range was given, the first free address from host 51 is reserved and it is the network's static host for the MAC and host name; without an address "Cannot map ..."; an unknown network "Can't retrieve network name"; a network without DHCP changes neither the lease map nor the store; no other network changes |
| ClientDomain.Domain.constructor | pkg/cloud/libvirt/client/domain.go:38-69 | the domain definition starts as given |
| ClientDomain.Domain.SetCoreOSIgnition | pkg/cloud/libvirt/client/domain.go:222-266 | empty key: "error setting coreos ignition, ignKey is empty" and no change; s390/ppc64: the read-only raw disk vdb with serial "ignition" is appended; else the QEMU command line becomes the fw_cfg pair |
| ClientDomain.Domain.SetDisks | pkg/cloud/libvirt/client/domain.go:309-327 | appends disk vda backed by the volume's path; "Error retrieving volume file" and no change when the path cannot be read |
| ClientDomain.Domain.SetFirmware | pkg/cloud/libvirt/client/domain.go:464-479 | the OS element gets the loader and NVRAM `WithFirmware` gives; nothing else changes |
| ClientDomain.Domain.DomainDefInit | pkg/cloud/libvirt/client/domain.go:481-505 | name, memory, vCPU checked in that order, each with its own error and no change; on success name, memory in MiB, vCPUs, CPU mode "host-passthrough" and firmware are set |
| ClientDomain.Domain.SetNetworkInterfaces | pkg/cloud/libvirt/client/domain.go:340-456 | exactly one virtio interface with the fresh MAC is appended; a MAC error or a network failure changes nothing; on a DHCP network success reserves the first free address from host 51 and registers it for that MAC and the host name (the domain name by default); without a network or DHCP the lease map and the store stay as they were; no other network changes |
| ClientIgnition.IgnitionFile | pkg/cloud/libvirt/client/ignition.go:150-188 | content naming an existing local file is copied; otherwise it must be a JSON object and is written as it is; anything else is "neither a file nor a valid json object" |
| ClientIgnition.IgnitionFileOfSecret | pkg/cloud/libvirt/client/ignition.go:160-175 | a secret holding a JSON object that is not a local path ends up in the file byte for byte |
| ClientIgnition.IgnitionVolumeDef | pkg/cloud/libvirt/client/ignition.go:96-122 | the Ignition volume is raw, named after the volume, its capacity the file's size in bytes |
| ClientIgnition.CreateAndUpload | pkg/cloud/libvirt/client/ignition.go:77-148 | pool lookup, refresh, file, create, upload, key, stopping at the first failure with its own message; on success the new volume holds the file |
| ClientIgnition.SetIgnition | pkg/cloud/libvirt/client/ignition.go:20-60 | an unset secret name, a missing secret or a missing "userData" key fail before any upload; on success the QEMU command line is the fw_cfg pair for the uploaded volume's key |
| ClientCloudInit.NoSemicolon | pkg/cloud/libvirt/client/cloudinit.go:282-284 | a text without ';' behind a prefix without ';' has none |
| ClientCloudInit.MetaDataSplit | pkg/cloud/libvirt/client/cloudinit.go:282-284 | without ';' in the name the meta-data splits at ';' into its two declarations |
| ClientCloudInit.MetaDataDeclares | pkg/cloud/libvirt/client/cloudinit.go:264-284 | the meta-data declares the name both as the instance id and as the local host name |
| ClientCloudInit.CdromDisk | pkg/cloud/libvirt/client/cloudinit.go:75-90 | the ISO is attached as a raw IDE CD-ROM "hdd" sourced from the volume's key |
| ClientCloudInit.CloudInitScript | pkg/cloud/libvirt/client/cloudinit.go:30-42 | the script is the secret's "userData" entry, or ":" when no secret is named |
| ClientCloudInit.IsoVolumeDef | pkg/cloud/libvirt/client/cloudinit.go:170-190 | the ISO volume is raw, named after the volume, its capacity the image's size in bytes |
| ClientCloudInit.UploadIso | pkg/cloud/libvirt/client/cloudinit.go:170-191 | the image error is returned; otherwise the ISO is uploaded by `uploadVolume` into the client's pool |
| ClientCloudInit.AttachIso | pkg/cloud/libvirt/client/cloudinit.go:54-92 | an ISO that cannot be built fails "unable to create ISO", an upload failure "unable to upload ISO"; on success the CD-ROM is appended |
| ClientCloudInit.SetCloudInit | pkg/cloud/libvirt/client/cloudinit.go:23-93 | nothing is done without a secret and without SSH access; secret errors come first; on success the domain gains exactly the CD-ROM |
| CloudInitUserData.FirstQuote | pkg/cloud/libvirt/client/cloudinit.go:239 | the first single quote after a quote-free text is the one right after it |
| CloudInitUserData.NoQuoteInEncoding | pkg/cloud/libvirt/client/cloudinit.go:206-208 | base64 text has no single quote, so the shell quoting cannot end inside it |
| CloudInitUserData.ScriptAfterQuoted | pkg/cloud/libvirt/client/cloudinit.go:239 | after the head, the text up to the first quote is the encoded script |
| CloudInitUserData.FillAround | pkg/cloud/libvirt/client/cloudinit.go:227-258 | the rendered document is the head, the encoded script and the rest |
| CloudInitUserData.FillScript | pkg/cloud/libvirt/client/cloudinit.go:227-258 | the script read back after the template's head is the one filled in |
| CloudInitUserData.FillSsh | pkg/cloud/libvirt/client/cloudinit.go:247-257 | the document ends with the SSH section exactly when SSH access was asked for |
| CloudInitUserData.RenderedScript | pkg/cloud/libvirt/client/cloudinit.go:205-225 | the guest decodes and runs exactly the script it was given, with or without SSH access |
| CloudInitUserData.RenderedSshGranted | pkg/cloud/libvirt/client/cloudinit.go:247-257 | with SSH access the SSH section and key end the document |
| CloudInitUserData.RenderedSshWithheld | pkg/cloud/libvirt/client/cloudinit.go:247-257 | without SSH access the document does not end with the SSH section |
| ClientS390.GenCmd | pkg/cloud/libvirt/client/s390_ignition.go:195-210 | guestfish with the arguments, through `sudo --preserve-env` when run as root; a non-empty env becomes the whole environment |
| ClientS390.GenCmdRunsGuestfish | pkg/cloud/libvirt/client/s390_ignition.go:195-205 | the command line ends with guestfish and exactly the given arguments; as root it is `sudo --preserve-env guestfish ...` |
| ClientS390.Shell.constructor | pkg/cloud/libvirt/client/s390_ignition.go:162-193 | the shell's command outputs and faults are as given |
| ClientS390.Shell.ExecError | pkg/cloud/libvirt/client/s390_ignition.go:162-172 | a command's fault is wrapped in "error running command '<command line>'" |
| ClientS390.Shell.StartAnswer | pkg/cloud/libvirt/client/s390_ignition.go:174-193 | a pipe or start failure is wrapped in the command line, a read failure is returned as it is, and any failure comes with no output |
| ClientS390.Shell.ExecCmd | pkg/cloud/libvirt/client/s390_ignition.go:162-172 | runs the command to completion: its output and `ExecError` |
| ClientS390.Shell.StartCmd | pkg/cloud/libvirt/client/s390_ignition.go:174-193 | starts the command and reads its output: `StartAnswer` |
| ClientS390.PidAssignment | pkg/cloud/libvirt/client/s390_ignition.go:79-87 | the output must be two pieces around one ';' and its first piece two pieces around one '=', each with its own error |
| ClientS390.PidAssignmentOf | pkg/cloud/libvirt/client/s390_ignition.go:66-87 | an output "GUESTFISH_PID=4513; export GUESTFISH_PID" yields "GUESTFISH_PID=4513" |
| ClientS390.FindBoot | pkg/cloud/libvirt/client/s390_ignition.go:89-110 | the appliance is launched, then the file system labelled "boot" is searched |
| ClientS390.Steps | pkg/cloud/libvirt/client/s390_ignition.go:117-157 | mount the boot file system on /, upload to /ignition/config.ign, unmount all, exit |
| ClientS390.Session | pkg/cloud/libvirt/client/s390_ignition.go:61-160 | the commands of a full session; an unreadable PID ends it after the start, an empty boot device after the search |
| ClientS390.SessionShape | pkg/cloud/libvirt/client/s390_ignition.go:61-160 | the session is the start, then the search, then the rest, in that order |
| ClientS390.StepsMountThenUpload | pkg/cloud/libvirt/client/s390_ignition.go:117-137 | the last steps run as root with the PID assignment as their environment and mount before they upload |
| ClientS390.UpToFailure | pkg/cloud/libvirt/client/s390_ignition.go:94-157 | the commands of a plan up to and including the first that fails |
| ClientS390.Advance | pkg/cloud/libvirt/client/s390_ignition.go:94-157 | a failing next command ends the run; otherwise the run goes on with the rest of the plan |
| ClientS390.CompletesStep | pkg/cloud/libvirt/client/s390_ignition.go:94-157 | a plan completes when its first command does not fail and its rest completes |
| ClientS390.InjectIgnitionByGuestfish | pkg/cloud/libvirt/client/s390_ignition.go:61-160 | the commands run are those of the session up to the first failure; nil iff the whole session ran without failure; a domain without a disk source panics |
| ClientS390.StartGuestfish | pkg/cloud/libvirt/client/s390_ignition.go:66-87 | `guestfish --listen -a <file>` as root and the PID assignment read from its output |
| ClientS390.RunSteps | pkg/cloud/libvirt/client/s390_ignition.go:89-160 | the remote commands after the start, stopping at the first failure; an empty boot device is "failed to get the boot filesystem" |
| ClientS390.Finish | pkg/cloud/libvirt/client/s390_ignition.go:117-160 | the last four commands, stopping at the first failure |
| ClientS390.ExecStep | pkg/cloud/libvirt/client/s390_ignition.go:162-172 | one root command of a plan: the trace grows by it and its error is the shell's |
| ClientS390.HostPartUnique | pkg/cloud/libvirt/client/s390_ignition.go:54 | the host part of a text is unique |
| ClientS390.FirstPieceIsHost | pkg/cloud/libvirt/client/s390_ignition.go:54 | the first piece of splitting at '/' is the text up to the first '/' |
| ClientS390.VirHost | pkg/cloud/libvirt/client/s390_ignition.go:54 | the text after the first "//" up to the next '/'; a URI without "//" panics |
| ClientS390.HostAfterSlashes | pkg/cloud/libvirt/client/s390_ignition.go:54 | the second piece after "//" starts with the host part |
| ClientS390.VirHostLocal | pkg/cloud/libvirt/client/s390_ignition.go:54-58 | a local URI such as qemu:///system names no host |
| ClientS390.InjectForURI | pkg/cloud/libvirt/client/s390_ignition.go:49-58 | a URI read error is returned; a named host injects over SSH, no host injects locally with guestfish |
| ClientS390.CompletesAll | pkg/cloud/libvirt/client/s390_ignition.go:94-160 | a plan none of whose commands fails runs to its end |
| ClientS390.SetIgnitionForS390X | pkg/cloud/libvirt/client/s390_ignition.go:21-59 | secret errors first and no upload; the volume is uploaded as for other architectures and then injected; the domain definition is only read |
| ClientClient.StrategyOf | pkg/cloud/libvirt/client/client.go:235-258 | the bootstrap is by Ignition iff one is given, by Ignition volume iff none is given and a key is, by cloud-init iff neither is given and a cloud-init configuration is, else none |
| ClientClient.FirstLeaseFor | pkg/cloud/libvirt/client/client.go:588-592 | the index of a lease for the address with none before it; none when no lease has the address |
| ClientClient.LeaseHostname | pkg/cloud/libvirt/client/client.go:588-593 | "Failed to find hostname for the DHCP lease with IP <ip>" iff no lease has the address; a host name answered belongs to a lease for the address |
| ClientClient.LeaseHostnameFirst | pkg/cloud/libvirt/client/client.go:588-592 | only the first lease for the address is read: what follows it does not matter |
| ClientClient.FirstLeaseAt | pkg/cloud/libvirt/client/client.go:588-592 | the first lease for the address is the one after all the leases for other addresses |
| ClientClient.LayeredDef | pkg/cloud/libvirt/client/client.go:411-455 | the default volume with the requested format and the backing store, as large as the larger of the base's capacity and allocation |
| ClientClient.LibvirtClient.constructor | pkg/cloud/libvirt/client/client.go:130-141 | the client holds the connection, whether it is connected, and the pool name |
| ClientClient.LibvirtClient.VolumeOf | pkg/cloud/libvirt/client/client.go:513-525 | found iff the lookup by name in the pool or by key succeeds; by name first; otherwise "can't retrieve volume" wrapping the key lookup's error |
| ClientClient.LibvirtClient.VolumeOfFound | pkg/cloud/libvirt/client/client.go:513-525 | with working lookups, a volume is found iff it is in the pool under that name or is a volume with that key |
| ClientClient.LibvirtClient.GetVolume | pkg/cloud/libvirt/client/client.go:513-525 | the answer is `VolumeOf`; the store is unchanged; the key lookup is only made after the name lookup fails |
| ClientClient.LibvirtClient.VolumeExists | pkg/cloud/libvirt/client/client.go:500-511 | no connection is `ErrLibVirtConIsNil`; otherwise no error and true iff `getVolume` finds the volume |
| ClientClient.LibvirtClient.DeleteVolume | pkg/cloud/libvirt/client/client.go:528-566 | no connection, an absent volume (`ErrVolumeNotFound`), a failed pool lookup and a failed delete each give their error and change nothing; otherwise exactly that volume is removed |
| ClientClient.LibvirtClient.LookupDomainByName | pkg/cloud/libvirt/client/client.go:318-330 | no connection is `ErrLibVirtConIsNil`; otherwise the lookup's answer; the store is unchanged |
| ClientClient.LibvirtClient.DomainExists | pkg/cloud/libvirt/client/client.go:333-348 | true iff the lookup succeeds; "not found" is no error, any other lookup error is returned as it is |
| ClientClient.LibvirtClient.Undefine | pkg/cloud/libvirt/client/client.go:382-393 | undefined with the NVRAM flag, retried without flags exactly when libvirt does not support the flag or refuses the argument; the domain is gone iff no error |
| ClientClient.LibvirtClient.DeleteDomain | pkg/cloud/libvirt/client/client.go:351-394 | an absent domain is `ErrDomainNotFound`; a running or paused domain is destroyed first and a failed destroy stops there; no error only when the domain was undefined and is gone; no other domain, volume or network changes |
| ClientClient.LibvirtClient.RemoveDomain | pkg/cloud/libvirt/client/client.go:364-394 | the second lookup, the state read, destroy when active, then undefine; same outcomes as `DeleteDomain` after its existence check |
| ClientClient.LibvirtClient.StopAndUndefine | pkg/cloud/libvirt/client/client.go:371-394 | a failed state read is "Couldn't get info about domain"; destroy only an active domain; then undefine |
| ClientClient.LibvirtClient.DestroyThenUndefine | pkg/cloud/libvirt/client/client.go:376-394 | destroys iff the domain is active, undefines iff no destroy failed; no error only when the domain is gone |
| ClientClient.LibvirtClient.CreateVolume | pkg/cloud/libvirt/client/client.go:397-497 | a name already found is "storage volume '<name>' already exists"; source and base together are refused; no source and no base creates nothing; a base layers the new volume on it at the larger of capacity and allocation; a source uploads into the volume the failed lookup left and adds none |
| ClientClient.LibvirtClient.DefFromBase | pkg/cloud/libvirt/client/client.go:432-455 | a missing base is "Can't retrieve volume <base>"; a found one gives `LayeredDef` over its capacity, allocation and backing store |
| ClientClient.LibvirtClient.CreateInPool | pkg/cloud/libvirt/client/client.go:458-485 | a pool not found after the retries is "can't find storage pool '<pool>'"; on success the volume is added to the pool under its key |
| ClientClient.LibvirtClient.AttachDisk | pkg/cloud/libvirt/client/client.go:220-231 | an empty name, memory or vCPU count is refused; on success the definition carries the input's values and the machine's disk |
| ClientClient.LibvirtClient.Bootstrap | pkg/cloud/libvirt/client/client.go:233-258 | the bootstrap the input's strategy selects, and "machine does not has a IgnKey nor CloudInit value" when there is none |
| ClientClient.LibvirtClient.BootFromVolume | pkg/cloud/libvirt/client/client.go:239-251 | a missing volume is "error getting ignition volume"; on success the volume's path becomes the Ignition source; a failure leaves the definition as it was |
| ClientClient.LibvirtClient.Skeleton | pkg/cloud/libvirt/client/client.go:208-217 | the definition built for the host and its architecture, or the capabilities error |
| ClientClient.LibvirtClient.BootedIgnoresInterfaces | pkg/cloud/libvirt/client/client.go:219-258 | the definition before the network step does not depend on its interfaces |
| ClientClient.LibvirtClient.Prepare | pkg/cloud/libvirt/client/client.go:219-258 | with no strategy there is an error; on success the definition is booted and its interfaces are untouched |
| ClientClient.LibvirtClient.BootAttached | pkg/cloud/libvirt/client/client.go:233-258 | the bootstrap step applied to the definition with the machine's disk leaves a booted definition |
| ClientClient.LibvirtClient.BootedOf | pkg/cloud/libvirt/client/client.go:233-258 | each strategy's result from the disk-only definition is booted and keeps its interfaces |
| ClientClient.LibvirtClient.Dress | pkg/cloud/libvirt/client/client.go:219-279 | on success the definition is booted and holds exactly one network interface; on a DHCP network the interface's MAC and the host name hold the first free address from host 51, reserved and registered; without DHCP the leases and networks are unchanged; no domain and no other network changes |
| ClientClient.LibvirtClient.CreateDomain | pkg/cloud/libvirt/client/client.go:202-314 | an empty name is "Failed to create domain, name is empty" with no call made; on success the domain is running with the requested autostart and the booted definition with one interface, and on a DHCP network that interface's MAC holds the first free address from host 51, reserved and registered as a static host; on failure no domain or a shut-off one is left; other domains and networks are untouched |
| ClientClient.LibvirtClient.Launch | pkg/cloud/libvirt/client/client.go:294-313 | define, set autostart, start, stopping at the first failure with its message; a domain once defined stays defined, shut off, when a later step fails |
| ClientClient.LibvirtClient.GetDHCPLeasesByNetwork | pkg/cloud/libvirt/client/client.go:570-578 | a failed network lookup is returned as it is; otherwise the network's leases |
| ClientClient.LibvirtClient.LookupDomainHostnameByDHCPLease | pkg/cloud/libvirt/client/client.go:581-594 | an unknown network is an error; with working lookups the answer is `LeaseHostname` over the network's leases |
| Kube.GetSecret | pkg/cloud/libvirt/client/ignition.go:28 | found iff the namespace holds a secret of that name, and then it is that secret |
| Kube.UserData | pkg/cloud/libvirt/client/ignition.go:28-35 | the secret's "userData" entry iff the secret exists and has it; a missing secret is the lookup error in the user-data context, a missing entry "key '<key>' not found in the secret" |
| Kube.BytesText | pkg/cloud/libvirt/client/ignition.go:39 | as many characters as bytes, each with the byte's code |
| Kube.TextBytes | pkg/cloud/libvirt/client/ignition.go:164 | as many bytes as characters, each the character's code modulo 256 |
| LibvirtXml.DomainType | pkg/cloud/libvirt/client/domain.go:62-66 | the environment's domain type when it is set and non-empty, "kvm" otherwise |
| LibvirtXml.BaseDomainDef | pkg/cloud/libvirt/client/domain.go:38-68 | an hvm OS, 512 MiB, one static vCPU, an empty CPU, the PAE, ACPI and APIC features, the given devices and the domain type |
| LibvirtXml.FixedDevices | pkg/cloud/libvirt/actuators/machine/utils/domain.go:77-113 | the guest-agent channel, a virtio RNG, a virtio console on port 0 and SPICE graphics with auto port, and no disk or interface |
| UtilsNetwork.AddsAfterNarrower | pkg/cloud/libvirt/actuators/machine/utils/network.go:52 | this generation adds only after ERR_OPERATION_INVALID from the network driver, a subset of the newest client's fallback; the two differ exactly on that code from another driver |
| UtilsNetwork.MissingHostAdds | pkg/cloud/libvirt/actuators/machine/utils/network.go:49-56 | libvirt's answer to modifying a MAC with no static host is one on which both generations fall back to adding |
| UtilsNetwork.UpdateOrAddHost | pkg/cloud/libvirt/actuators/machine/utils/network.go:49-93 | the modify's answer is the result unless it is ERR_OPERATION_INVALID from the network driver, then the host is appended; a failure changes nothing; on success only that network's host list changes: the entry with that MAC replaced by the new host, or the host appended after the add; no other network, domain or volume changes |
| UtilsNetwork.DefaultNetworkDef | pkg/cloud/libvirt/actuators/machine/utils/network.go:127-143 | the network "default" forwarding with NAT over ports 1024-65535, without domain, bridge or addresses |
| UtilsNetwork.NetIP | pkg/cloud/libvirt/actuators/machine/utils/network.go:274-279 | a 4-byte address is kept, a 16-byte one is kept unless it maps an IPv4 address |
| UtilsNetwork.NetworkRange | pkg/cloud/libvirt/actuators/machine/utils/network.go:272-285 | the first address is the address masked (nil when the lengths differ) and the last one has every host bit set, byte by byte |
| UtilsNetwork.AsWrittenRefusesOnlyFullPrefix | pkg/cloud/libvirt/actuators/machine/utils/network.go:189-192 | as written, `2 ^ bits - 2 ^ ones` (exclusive or) is below 4 exactly for a /32 or /128 prefix |
| UtilsNetwork.TooStrictIff | pkg/cloud/libvirt/actuators/machine/utils/network.go:189-192 | the intended check refuses exactly the prefixes with fewer than two host bits |
| UtilsNetwork.ChecksDifferOnlyOneBitShort | pkg/cloud/libvirt/actuators/machine/utils/network.go:189-192 | the check as written and the intended check disagree exactly on a /31 or /127 prefix, which only the intended one refuses |
| UtilsNetwork.SlashThirtyOneAccepted | pkg/cloud/libvirt/actuators/machine/utils/network.go:189-209 | 10.0.0.0/31 passes the check as written, and its DHCP range 10.0.0.2-10.0.0.0 starts after its end and outside the network |
| UtilsNetwork.Family | pkg/cloud/libvirt/actuators/machine/utils/network.go:185-188 | "ipv6" iff the mask has 128 bits, else "ipv4" |
| UtilsNetwork.Hosts | pkg/cloud/libvirt/actuators/machine/utils/network.go:196-209 | none exactly when the masked first address is nil; otherwise the host is the first address plus one in its last byte, the range starts one further and ends at the last address minus one |
| UtilsNetwork.Net31Hosts | pkg/cloud/libvirt/actuators/machine/utils/network.go:196-209 | for 10.0.0.0/31 the host address is 10.0.0.1, the DHCP start 10.0.0.2 and the DHCP end 10.0.0.0 |
| UtilsNetwork.Net31StartOutside | pkg/cloud/libvirt/actuators/machine/utils/network.go:196-209 | the DHCP start 10.0.0.2 computed for 10.0.0.0/31 lies outside that network |
| UtilsNetwork.NetworkIPFor | pkg/cloud/libvirt/actuators/machine/utils/network.go:179-219 | one loop iteration: the parse error, the netmask error, or the element with the prefix length and family "ipv6" iff the mask has 128 bits |
| UtilsNetwork.HostAddresses | pkg/cloud/libvirt/actuators/machine/utils/network.go:196-209 | the host address and DHCP range `Hosts` describes |
| UtilsNetwork.RangeInsideNetwork | pkg/cloud/libvirt/actuators/machine/utils/network.go:194-218 | with at least two host bits, the host address and both ends of the DHCP range mask back to the network; host = first + 1, start = first + 2, end = last - 1, start <= end |
| UtilsNetwork.CollectOk | pkg/cloud/libvirt/actuators/machine/utils/network.go:177-221 | the address loop succeeds iff every address does, with one element per address in order |
| UtilsNetwork.CollectErr | pkg/cloud/libvirt/actuators/machine/utils/network.go:179-192 | a failing loop fails with the error of its first failing address |
| UtilsNetwork.CollectPrefixErr | pkg/cloud/libvirt/actuators/machine/utils/network.go:179-192 | once an address fails, later addresses do not matter |
| UtilsNetwork.NetworkModes | pkg/cloud/libvirt/actuators/machine/utils/network.go:151-232 | "none" drops forwarding, "nat" and "route" keep no NAT ports and use the addresses, "bridge" needs a bridge name and drops forwarding, any other mode is "unsupported network mode"; DHCP is served iff the mode is "nat" or "route" |
| UtilsNetwork.NetworkIPs | pkg/cloud/libvirt/actuators/machine/utils/network.go:177-221 | the loop's result is the collection of the addresses' elements |
| UtilsNetwork.BuildNetworkDef | pkg/cloud/libvirt/actuators/machine/utils/network.go:145-232 | builds the definition the mode rules give |
| UtilsNetwork.CreateCalls | pkg/cloud/libvirt/actuators/machine/utils/network.go:247-268 | define, create, UUID, and the autostart call iff autostart is asked |
| UtilsNetwork.StartNetwork | pkg/cloud/libvirt/actuators/machine/utils/network.go:234-269 | the calls up to the first failure, with that step's message; on success the network is stored active with the requested autostart; a failure before the definition changes nothing, a later one leaves the network defined without hosts or autostart, active iff it failed after `NetworkCreate`; nothing else changes |
| UtilsNetwork.DefineAndActivate | pkg/cloud/libvirt/actuators/machine/utils/network.go:247-268 | define, create, read the UUID, then set autostart only when asked, stopping at the first failure with that step's message; on success the network is defined and active with the requested autostart; a failed definition changes nothing, a later failure leaves it defined without autostart, active iff it failed after `NetworkCreate`; nothing else changes |
| UtilsNetwork.ActivateNetwork | pkg/cloud/libvirt/actuators/machine/utils/network.go:251-268 | from a defined, inactive network: the remaining calls up to the first failure; on success the network is active with the requested autostart; a failure leaves it defined without autostart, active iff `NetworkCreate` succeeded |
| UtilsNetwork.IdentifyNetwork | pkg/cloud/libvirt/actuators/machine/utils/network.go:257-268 | from an active network: the UUID read and the autostart call only when asked, up to the first failure; a failure changes nothing |
| UtilsNetwork.CreateNetwork | pkg/cloud/libvirt/actuators/machine/utils/network.go:145-270 | a definition the mode rules or an address refuse is its error with no call made; otherwise defined and started, stopping at the first failure; on success exactly that network is stored, active, with the requested autostart; a failure before `NetworkCreate` changes nothing, one at or after it leaves the network defined without hosts or autostart, active iff `NetworkCreate` itself succeeded |
| UtilsNetwork.DeleteCalls | pkg/cloud/libvirt/actuators/machine/utils/network.go:287-312 | the lookup, the activity check, a start iff the network is inactive, destroy, undefine |
| UtilsNetwork.RemoveNetwork | pkg/cloud/libvirt/actuators/machine/utils/network.go:294-312 | an inactive network is started before it is destroyed; the calls stop at the first failure, whose message is the step's context, then the cause after a space for the restart ("Cannot restart an inactive network <err>") and after ": " otherwise; on success the network is gone |
| UtilsNetwork.DestroyNetwork | pkg/cloud/libvirt/actuators/machine/utils/network.go:306-312 | destroy then undefine, stopping at the first failure, with its message |
| UtilsNetwork.DestroyAsFound | pkg/cloud/libvirt/actuators/machine/utils/network.go:298-312 | a network whose activity is known: started first only when inactive, then destroyed and undefined, up to the first failure, reported with its step's text (no colon after the restart's); on success it is removed |
| UtilsNetwork.RestartAndDestroy | pkg/cloud/libvirt/actuators/machine/utils/network.go:298-312 | an inactive network is started, then destroyed and undefined, up to the first failure, reported with its step's text ("Cannot restart an inactive network <err>" for the restart); on success it is removed |
| UtilsNetwork.RemovalAfterStart | pkg/cloud/libvirt/actuators/machine/utils/network.go:298-304 | starting an inactive network first does not change what its removal leaves |
| UtilsNetwork.DeleteNetwork | pkg/cloud/libvirt/actuators/machine/utils/network.go:287-320 | an unknown network is "When destroying libvirt network: error retrieving <err>" and nothing changes; otherwise the calls stop at the first failure with its step's text; on success exactly that network is removed |
| UtilsNetwork.DeleteErrorText | pkg/cloud/libvirt/actuators/machine/utils/network.go:287-312 | a deletion error is its step's context and the cause, separated by a space after the lookup and the restart and by ": " after the others |
| UtilsVolume.NewDefVolume | pkg/cloud/libvirt/actuators/machine/utils/volume.go:48-63 | an unnamed qcow2 volume, mode 644, of one byte, without backing store: the newest client's default with the empty name |
| LegacyCloudInit.ChunksConcat | cloud/libvirt/actuators/machine/utils/cloudinit.go:19-32 | the pieces joined back give the user data |
| LegacyCloudInit.ChunksSizes | cloud/libvirt/actuators/machine/utils/cloudinit.go:19-32 | every piece but the last has exactly the maximum size, and the last between one character and the maximum |
| LegacyCloudInit.ChunksCount | cloud/libvirt/actuators/machine/utils/cloudinit.go:20-30 | there are `len / size` pieces, and one more when the division leaves a remainder |
| LegacyCloudInit.ChunksFull | cloud/libvirt/actuators/machine/utils/cloudinit.go:24-26 | piece j of the full ones is the text from j*size to (j+1)*size |
| LegacyCloudInit.ChunksRest | cloud/libvirt/actuators/machine/utils/cloudinit.go:28-30 | after the full pieces, the last piece is the remainder of the text |
| LegacyCloudInit.FullPiece | cloud/libvirt/actuators/machine/utils/cloudinit.go:24-26 | every index below `len / size` names a full piece lying inside the text |
| LegacyCloudInit.BreakUserDataIntoChunks | cloud/libvirt/actuators/machine/utils/cloudinit.go:19-32 | the loop's pieces are the text cut into runs of the maximum size with the remainder last |
| LegacyCloudInit.ChunkArgsAt | cloud/libvirt/actuators/machine/utils/cloudinit.go:68-76 | two arguments per piece: "-fw_cfg", then `name=opt/actuator.libvirt.io.k8s.sigs/config<index>,string=<piece>` with the index zero-padded |
| LegacyCloudInit.FirmwareArgs | cloud/libvirt/actuators/machine/utils/cloudinit.go:67-76 | the loop's arguments pad every index to the number of pieces |
| LegacyCloudInit.UserDataArgsCarryData | cloud/libvirt/actuators/machine/utils/cloudinit.go:62-76 | the pieces the command line carries, joined and base64-decoded, give back the secret's user data |
| LegacyCloudInit.SetCloudInit | cloud/libvirt/actuators/machine/utils/cloudinit.go:34-80 | an empty ISO path is "error setting cloud-init, ISO image path is empty" and nothing changes; otherwise the ISO is attached as an IDE cdrom hdd; a named secret that cannot be read is an error after the attach; a readable one replaces the QEMU command line with its user data's arguments |
| UtilsDomain.NewDomainDefAgrees | pkg/cloud/libvirt/actuators/machine/utils/domain.go:60-128 | this skeleton always has SPICE graphics, and equals the newest client's skeleton exactly on hosts that are neither s390 nor ppc64 |
| UtilsDomain.GuestForArchType | pkg/cloud/libvirt/actuators/machine/utils/domain.go:166-175 | found iff some guest has the architecture and OS type, and then the newest client's answer; otherwise "could not find any guests for architecture type" |
| UtilsDomain.CanonicalMachineName | pkg/cloud/libvirt/actuators/machine/utils/domain.go:177-193 | found iff the newest client's lookup finds it, with the same name; a missing guest or machine gives this generation's messages |
| UtilsDomain.DefForGuestAgrees | pkg/cloud/libvirt/actuators/machine/utils/domain.go:195-225 | built for the same guest, the definition equals the newest client's off s390 and ppc64, where it keeps SPICE graphics |
| UtilsDomain.HostDef | pkg/cloud/libvirt/actuators/machine/utils/domain.go:195-225 | built iff the host architecture has an hvm guest with a machine name; then the skeleton with that emulator and machine; otherwise a guest or machine error |
| UtilsDomain.NewDomainDefForConnection | pkg/cloud/libvirt/actuators/machine/utils/domain.go:195-225 | a capabilities read failure is its error; otherwise `HostDef` for the host's capabilities; nothing is stored |
| UtilsDomain.SetCoreOSIgnition | pkg/cloud/libvirt/actuators/machine/utils/domain.go:227-243 | an empty key is "error setting coreos ignition, ignKey is empty" and changes nothing; otherwise the QEMU command line names the key as the Ignition config |
| UtilsDomain.RootDisk | pkg/cloud/libvirt/actuators/machine/utils/domain.go:246-258 | disk vda of format qcow2 backed by the file |
| UtilsDomain.SetDisks | pkg/cloud/libvirt/actuators/machine/utils/domain.go:286-309 | succeeds iff the volume with the key can be looked up and its path read; then disk vda on that path is appended; a failure changes nothing |
| UtilsDomain.DomainDefInit | pkg/cloud/libvirt/actuators/machine/utils/domain.go:436-466 | the first of an empty name, zero memory and zero vCPUs is "machine does not have an ... set"; otherwise the name, memory in MiB and vCPU count are set |
| UtilsDomain.ReadNetwork | pkg/cloud/libvirt/actuators/machine/utils/domain.go:345-358 | a failed lookup is "Can't retrieve network name"; a failed name read is wrapped; the definition serves DHCP iff the stored network does |
| UtilsDomain.RegisterAddress | pkg/cloud/libvirt/actuators/machine/utils/domain.go:360-401 | no address is "Cannot map '<host>': we are not waiting for DHCP lease and no IP has been provided"; an unparsable range and an address `GenerateIP` refuses are their errors; on success the host with the generated address, MAC and name is in the network; no other network changes |
| UtilsDomain.JoinNetwork | pkg/cloud/libvirt/actuators/machine/utils/domain.go:345-402 | a network without DHCP is joined with no change; one with DHCP registers the host as `RegisterAddress` says; no other network changes |
| UtilsDomain.SetNetworkInterfaces | pkg/cloud/libvirt/actuators/machine/utils/domain.go:322-413 | one virtio interface with a fresh MAC is appended on success and nothing on failure; a MAC error is "Error generating mac address" and changes no state; with DHCP the host name defaults to the domain's name and is registered with the generated address; no other network changes |
| UtilsDomain.Bootstrap | pkg/cloud/libvirt/actuators/machine/utils/domain.go:485-496 | an Ignition key wins and sets the firmware arguments; else cloud-init as the oldest helpers set it; else "machine does not has a IgnKey nor CloudInit value" |
| UtilsDomain.Prepare | pkg/cloud/libvirt/actuators/machine/utils/domain.go:480-505 | zero memory or vCPUs and a missing strategy give their errors; on success the disk at the base path + volume name is readable and the definition is booted |
| UtilsDomain.Dress | pkg/cloud/libvirt/actuators/machine/utils/domain.go:480-518 | on success the definition is booted and dressed with one interface; with a DHCP network the host is registered |
| UtilsDomain.StartError | pkg/cloud/libvirt/actuators/machine/utils/domain.go:536-549 | no error iff define, autostart and start all succeed; otherwise the first failure with its message |
| UtilsDomain.DefineAndStart | pkg/cloud/libvirt/actuators/machine/utils/domain.go:536-549 | the error is `StartError`; the stored domain is the definition, running with the requested autostart when all succeeded |
| UtilsDomain.Launch | pkg/cloud/libvirt/actuators/machine/utils/domain.go:525-558 | a URI read failure stops before the define; a domain once defined stays defined when a later step fails; a UUID read failure is "error retrieving libvirt domain id"; no error iff every step succeeds |
| UtilsDomain.BuildAndLaunch | pkg/cloud/libvirt/actuators/machine/utils/domain.go:480-558 | on success the domain is running with the requested autostart and its definition is dressed; other domains and all volumes are untouched |
| UtilsDomain.CreateDomain | pkg/cloud/libvirt/actuators/machine/utils/domain.go:468-559 | an empty name is "Failed to create domain, name is empty" with no call; capabilities errors are "Failed to newDomainDefForConnection"; no strategy is its error; on success the domain runs with the dressed definition and, with DHCP, its host is registered |
| UtilsDomain.LookupDomainByName | pkg/cloud/libvirt/actuators/machine/utils/domain.go:602-614 | a nil connection is `ErrLibVirtConIsNil`; otherwise the lookup's answer |
| UtilsDomain.DomainExists | pkg/cloud/libvirt/actuators/machine/utils/domain.go:617-633 | true iff the lookup finds the domain; "no such domain" is no error, any other failure is returned |
| UtilsDomain.Undefine | pkg/cloud/libvirt/actuators/machine/utils/domain.go:585-596 | undefined with the NVRAM flag, retried without flags exactly when libvirt does not support the flag; gone iff no error |
| UtilsDomain.DestroyThenUndefine | pkg/cloud/libvirt/actuators/machine/utils/domain.go:580-596 | destroys iff the domain is running or paused, undefines iff no destroy failed |
| UtilsDomain.StopAndUndefine | pkg/cloud/libvirt/actuators/machine/utils/domain.go:575-596 | a failed state read is "Couldn't get info about domain"; then destroy when active and undefine |
| UtilsDomain.DeleteDomain | pkg/cloud/libvirt/actuators/machine/utils/domain.go:561-598 | a nil connection is `ErrLibVirtConIsNil`; any lookup failure is "Error retrieving libvirt domain"; destroy iff active; on success exactly that domain is removed; volumes and networks never change |
| UtilsDomain.Tagged | pkg/cloud/libvirt/actuators/machine/utils/domain.go:651-658 | one internal-IP node address per address, in order |
| UtilsDomain.InternalIPsAre | pkg/cloud/libvirt/actuators/machine/utils/domain.go:637-661 | every node address is an internal IP, and an address is reported iff some interface has it |
| UtilsDomain.NodeAddresses | pkg/cloud/libvirt/actuators/machine/utils/domain.go:637-661 | no domain gives no addresses and no call; otherwise the interfaces' addresses as internal IPs, or the lookup's error |
| UtilsDomain.DomainStateString | pkg/cloud/libvirt/actuators/machine/utils/domain.go:665-686 | "Unknown" iff the number is not a libvirt domain state |
| UtilsDomain.DomainStateStringsDiffer | pkg/cloud/libvirt/actuators/machine/utils/domain.go:665-686 | different states have different names |
| UtilsClient.StrategyOf | pkg/cloud/libvirt/actuators/machine/utils/client.go:50-65 | by Ignition iff one is given, by key iff none is given and the key is set, by cloud-init iff neither and a cloud-init configuration is given |
| UtilsClient.Bootstrap | pkg/cloud/libvirt/actuators/machine/utils/client.go:50-65 | no strategy is "machine does not has a IgnKey nor CloudInit value" and changes nothing; each strategy's failure leaves the definition as it was; its success sets the firmware arguments or appends the cloud-init disk |
| UtilsClient.Prepare | pkg/cloud/libvirt/actuators/machine/utils/client.go:44-71 | zero memory or vCPUs and a missing strategy give their errors; on success the disk at the base path + volume name is readable and the definition is booted |
| UtilsClient.Dress | pkg/cloud/libvirt/actuators/machine/utils/client.go:44-88 | on success the definition is booted and holds one interface; with a DHCP network the host is registered |
| UtilsClient.BuildAndLaunch | pkg/cloud/libvirt/actuators/machine/utils/client.go:44-125 | on success the domain is running with the requested autostart and its definition is dressed; other domains and all volumes are untouched |
| UtilsClient.CreateDomain | pkg/cloud/libvirt/actuators/machine/utils/client.go:33-126 | an empty name is refused with no call; capabilities errors are "Failed to newDomainDefForConnection"; no strategy is its error; on success the domain is running with the dressed definition and, with DHCP, its host is registered |
| UtilsClient.DeleteDomain | pkg/cloud/libvirt/actuators/machine/utils/client.go:164-208 | a nil connection is `ErrLibVirtConIsNil`; "not found" becomes `ErrDomainNotFound` and other lookup errors are returned; the domain is looked up twice; destroy iff active; on success exactly that domain is removed |
| UtilsClient.DefFor | pkg/cloud/libvirt/actuators/machine/utils/client.go:239-272 | the name and format asked; a source gives its size in bytes and no backing store; a base gives the fixed size and the base as backing store; neither gives the one-byte default |
| UtilsClient.VolumeDefFor | pkg/cloud/libvirt/actuators/machine/utils/client.go:237-272 | source and base together are "'base_volume_id' can't be specified when also 'source' is given"; a base must be readable ("Can't retrieve volume", "Could not retrieve backing store"); the definition is `DefFor`; nothing is stored |
| UtilsClient.CreateAndImport | pkg/cloud/libvirt/actuators/machine/utils/client.go:274-299 | a taken name or unknown pool is "Error creating libvirt volume"; otherwise exactly one key is added; with a source the uploaded bytes are its content; a failed key read is "Error retrieving volume key" |
| UtilsClient.CreateVolume | pkg/cloud/libvirt/actuators/machine/utils/client.go:211-304 | an unknown pool is "can't find storage pool '<pool>'"; the pool is refreshed; a taken name is "storage volume '<name>' already exists"; each input error changes nothing; on success exactly the new volume is added, with its definition and uploaded content |
| UtilsClient.VolumeExists | pkg/cloud/libvirt/actuators/machine/utils/client.go:307-320 | a nil connection is `ErrLibVirtConIsNil`; otherwise no error and true iff the path base path + name resolves |
| UtilsClient.DeleteVolume | pkg/cloud/libvirt/actuators/machine/utils/client.go:323-375 | an absent volume is `ErrVolumeNotFound`; pool lookup, XML read and delete failures give their messages and change nothing; no error iff all succeed, and then exactly that volume is removed |
| LegacyVolume.VolumeFromPool | cloud/libvirt/actuators/machine/utils/volume.go:197-218 | found iff the pool and the name are found; the key is then in the pool; otherwise the pool lookup's or the volume lookup's error, each with its context |
| LegacyVolume.GetVolumeFromPool | cloud/libvirt/actuators/machine/utils/volume.go:197-218 | answers VolumeFromPool; the pool is refreshed before the volume lookup only once the pool is found; nothing is stored |
| LegacyVolume.DefineVolume | cloud/libvirt/actuators/machine/utils/volume.go:103-150 | a name already in the pool is "already exists"; source plus base is refused; an unreadable image, a missing base or an unreadable backing store give their errors; neither source nor base always defines |
| LegacyVolume.DefineFresh | cloud/libvirt/actuators/machine/utils/volume.go:118-150 | the definition past the name check: capacity from the image, or a backing store from the base volume, with each failure's error |
| LegacyVolume.OpenPoolAsWritten | cloud/libvirt/actuators/machine/utils/volume.go:161-171 | as written, an unknown pool ends in a nil-pointer panic rather than an error |
| LegacyVolume.OpenPool | cloud/libvirt/actuators/machine/utils/volume.go:161-171 | an unknown pool gives "can't find storage pool"; a found pool opens with no error; nothing is stored |
| LegacyVolume.CreateVolumeAsWritten | cloud/libvirt/actuators/machine/utils/volume.go:103-195 | an unknown pool with neither source nor base panics through the nil pool and stores nothing; otherwise it refuses an existing name, a source with a base, an unreadable image or base as `CreateVolume` does, and a success adds exactly the new volume with the source uploaded |
| LegacyVolume.CreateVolume | cloud/libvirt/actuators/machine/utils/volume.go:103-195 | each refusal (existing name, source plus base, unreadable image, missing base, unknown pool) gives its error and stores nothing; success adds exactly the new key with the layered definition and the uploaded image; domains and networks are untouched |
| LegacyVolume.DeleteVolume | cloud/libvirt/actuators/machine/utils/volume.go:221-249 | a failed pool or volume lookup is "failed getting volume from pool"; failures in the XML read or the delete are reported with the volume's name and change nothing; success removes exactly that key |
| LegacyDomain.SetDisks | cloud/libvirt/actuators/machine/utils/domain.go:265-282 | succeeds iff the volume's path can be read; then disk vda on that path is appended; on failure the definition is unchanged |
| LegacyDomain.Ignite | cloud/libvirt/actuators/machine/utils/domain.go:457-472 | no key is "machine does not has a IgnKey value"; a missing volume and an unreadable path give their errors; succeeds iff the key is set and its volume readable, and then the firmware arguments name that path |
| LegacyDomain.AttachDisk | cloud/libvirt/actuators/machine/utils/domain.go:474-483 | a missing volume is "can't retrieve volume for pool"; an unreadable path is "Failed to setDisks"; succeeds iff the disk is readable, and then it is attached |
| LegacyDomain.Prepare | cloud/libvirt/actuators/machine/utils/domain.go:452-483 | zero memory, zero vCPUs and a missing key give their errors in that order; succeeds iff every step can succeed, and the definition is then booted from the arguments |
| LegacyDomain.Dress | cloud/libvirt/actuators/machine/utils/domain.go:295-496 | `Prepare`, then one interface: a definition that cannot be prepared and a MAC error change nothing; an unknown network name is "Can't retrieve network name <name>"; without a network name nothing is stored; on success the booted definition gains exactly one virtio interface, and on a DHCP network the host with the address at host number `offset` and the defaulted host name is registered |
| LegacyDomain.BuildAndLaunch | cloud/libvirt/actuators/machine/utils/domain.go:452-536 | a definition that cannot be prepared is an error and stores nothing; a MAC error stores nothing; an unknown network name is "Can't retrieve network name <name>"; on success the domain is running with its definition booted and one virtio interface on the named network, and with DHCP the host is registered at host number `offset`; only that domain and that network change |
| LegacyDomain.CreateDomain | cloud/libvirt/actuators/machine/utils/domain.go:440-537 | an empty name, a failed capabilities read, an unusable host and a missing Ignition key give their errors and store nothing; on success the domain is running with the requested autostart, a definition booted from the host skeleton and one virtio interface; only that domain and the named network change, and the network only when one is named |
| LegacyDomain.DomainExists | cloud/libvirt/actuators/machine/utils/domain.go:580-597 | a nil connection is an error; otherwise exactly one lookup, true iff the domain is found, and the lookup's error only when it failed for another reason |
| LegacyDomain.DeleteDomain | cloud/libvirt/actuators/machine/utils/domain.go:539-577 | a nil connection is an error with no calls; a failed lookup is "Error retrieving libvirt domain" after that one call; destroy is called iff the domain is found, its state read and active; undefine iff found, state read and any needed destroy succeeded; on success exactly that domain is gone |
| Actuator.MachineError | pkg/cloud/libvirt/actuators/machine/actuator.go:43-44 | the message reads "cluster/machine: message: error" |
| Actuator.ConfigOf | pkg/cloud/libvirt/actuators/machine/actuator.go:221-234 | a spec without a provider configuration is "no Value in ProviderConfig"; otherwise its decoded value or decoding error |
| Actuator.ClientError | pkg/cloud/libvirt/actuators/machine/actuator.go:373-380 | a configuration error is wrapped as "error getting machineProviderConfig from spec"; otherwise the dial outcome is returned unchanged |
| Actuator.NextOffset | pkg/cloud/libvirt/actuators/machine/actuator.go:87 | `cidrOffset++` on Go's 64-bit int: plus one below the maximum, and the maximum wraps to the minimum |
| Actuator.OffsetAfterIs | pkg/cloud/libvirt/actuators/machine/actuator.go:67-90 | after n increments from the initial 50, the offset is 50 + n (below the wrap) |
| Actuator.OffsetsDiffer | pkg/cloud/libvirt/actuators/machine/actuator.go:86-90 | machines created at different points get different offsets, so different host numbers |
| Actuator.DomainOrCleanup | pkg/cloud/libvirt/actuators/machine/actuator.go:186-196 | on success the volumes are unchanged and the domain runs with the dressed definition; a failed domain whose cleanup succeeds leaves the machine's volume removed |
| Actuator.VolumeThenDomain | pkg/cloud/libvirt/actuators/machine/actuator.go:163-196 | a failed volume leaves the domains unchanged and skips the domain; a failed domain with a successful cleanup leaves the volumes as they were; success provisions volume and domain |
| Actuator.CreateVolumeAndDomain | pkg/cloud/libvirt/actuators/machine/actuator.go:163-204 | each step's failure is wrapped with its own context ("error getting machineProviderConfig from spec", "error creating volume", "error creating domain", "error looking up libvirt machine"); success provisions the volume and the running domain and returns the machine's domain |
| Actuator.ProviderStatusFromMachine | pkg/cloud/libvirt/actuators/machine/actuator.go:316-341 | an absent provider status decodes to the empty one; otherwise its decoded value or decoding error |
| Actuator.ProviderStatusFor | pkg/cloud/libvirt/actuators/machine/actuator.go:345-369 | no domain clears the instance ID and state; with a domain it succeeds iff the UUID and the state can be read, sets them, and keeps apiVersion and kind; otherwise the first failure is returned |
| Actuator.ReportedStateNames | pkg/cloud/libvirt/actuators/machine/actuator.go:352-366 | for every state, a readable domain is reported with its UUID and the name of its state; two domains in libvirt states get the same name exactly when their states are equal |
| Actuator.UpdateProviderStatus | pkg/cloud/libvirt/actuators/machine/actuator.go:345-369 | answers ProviderStatusFor and stores nothing; without a domain nothing is called |
| Actuator.NewStatus | pkg/cloud/libvirt/actuators/machine/actuator.go:262-293 | the new status carries the provider status and keeps the last-update time; the addresses are replaced only when given |
| Actuator.StatusRoundTrip | pkg/cloud/libvirt/actuators/machine/actuator.go:262-293 | the status written back decodes to the provider status it came from and carries the given addresses |
| Actuator.ApplyAgainUnchanged | pkg/cloud/libvirt/actuators/machine/actuator.go:262-293 | applying the same status to the machine just written changes nothing, so it is not written again |
| Actuator.Actuator.constructor | pkg/cloud/libvirt/actuators/machine/actuator.go:67-73 | the offset starts at 50 and nothing is written |
| Actuator.Actuator.ApplyMachineStatus | pkg/cloud/libvirt/actuators/machine/actuator.go:262-293 | a machine is written, stamped with the time, iff its status changes; the outcome is then the cluster's answer, otherwise none |
| Actuator.Actuator.UpdateStatus | pkg/cloud/libvirt/actuators/machine/actuator.go:237-260 | the first failure to read the status, update it or list the addresses is returned and nothing is written; otherwise the reported status is applied; nothing is stored |
| Actuator.Actuator.Create | pkg/cloud/libvirt/actuators/machine/actuator.go:76-102 | no client is "error creating libvirt client" and changes nothing; otherwise the offset is incremented even if what follows fails; a failed provisioning is "error creating libvirt machine"; success provisions the machine and updates its status |
| Actuator.Actuator.CreateMachine | pkg/cloud/libvirt/actuators/machine/actuator.go:89-101 | a failed provisioning is "error creating libvirt machine" and writes nothing; success provisions the machine and updates its status |
| Actuator.Actuator.Update | pkg/cloud/libvirt/actuators/machine/actuator.go:120-143 | no client and a failed domain lookup give their wrapped errors and write nothing; otherwise the status is updated from the domain; nothing is stored |
| Actuator.DeleteVolumeAndDomain | pkg/cloud/libvirt/actuators/machine/actuator.go:207-217 | the domain is deleted first and its failure keeps the volumes; a failed volume delete keeps the domain gone; succeeds iff both steps do, and then exactly the domain and its volume are gone |
| Actuator.Delete | pkg/cloud/libvirt/actuators/machine/actuator.go:105-117 | no client is "error creating libvirt client" and changes nothing; a missing domain is an error and changes nothing; success removes exactly the domain and its volume |
| Actuator.Exists | pkg/cloud/libvirt/actuators/machine/actuator.go:146-158 | no client is an error and nothing is called; otherwise true iff the domain is found, with no error when found or not found; with a working lookup it is true iff the domain is defined; nothing is stored |
| ConnectionUri.PairOf | vendor/github.com/dmacvicar/terraform-provider-libvirt/libvirt/uri/connection_uri.go:37-45 | a query piece is split at its first `=`: the key has none, and key, `=`, value join back into the piece; a piece without `=` has the empty value |
| ConnectionUri.Lookup | vendor/github.com/dmacvicar/terraform-provider-libvirt/libvirt/uri/connection_uri.go:37-45 | a non-empty value belongs to a pair with that key; no pair with that key gives "" |
| ConnectionUri.LookupFirst | vendor/github.com/dmacvicar/terraform-provider-libvirt/libvirt/uri/connection_uri.go:37-45 | the first pair with the key decides the value |
| ConnectionUri.JoinHead | vendor/github.com/dmacvicar/terraform-provider-libvirt/libvirt/uri/connection_uri.go:48-62 | the first `+`-piece of a scheme is its prefix, followed by `+` and the second piece when there are more |
| ConnectionUri.Driver | vendor/github.com/dmacvicar/terraform-provider-libvirt/libvirt/uri/connection_uri.go:60-62 | the scheme's prefix before its first `+`, the whole scheme without a `+` |
| ConnectionUri.Transport | vendor/github.com/dmacvicar/terraform-provider-libvirt/libvirt/uri/connection_uri.go:48-58 | with a `+`, the piece after the driver; without one, "tls" for a URI with a host and "unix" otherwise |
| ConnectionUri.SchemeRoundTrip | vendor/github.com/dmacvicar/terraform-provider-libvirt/libvirt/uri/connection_uri.go:48-62 | a scheme `driver+transport` reads back as that driver and that transport |
| ConnectionUri.QemuOverSsh | vendor/github.com/dmacvicar/terraform-provider-libvirt/libvirt/uri/connection_uri.go:48-62 | `qemu+ssh` is the qemu driver over ssh |
| ConnectionUri.DialerFor | vendor/github.com/dmacvicar/terraform-provider-libvirt/libvirt/uri/connection_uri.go:73-86 | each of tcp, tls, unix and ssh gets its dialer; any other transport is "transport '<t>' not implemented" |
| ConnectionUri.DialTransport | vendor/github.com/dmacvicar/terraform-provider-libvirt/libvirt/uri/connection_uri.go:73-86 | the dialer of the URI's transport, or "transport '<t>' not implemented" |
| ConnectionUri.ImplicitTransportDials | vendor/github.com/dmacvicar/terraform-provider-libvirt/libvirt/uri/connection_uri.go:48-58 | a scheme without a `+` always dials: TLS to a host, else the UNIX socket |
| ConnectionUri.Format | vendor/github.com/dmacvicar/terraform-provider-libvirt/libvirt/uri/connection_uri.go:34-46 | a URI with a scheme prints starting with `scheme:` |
| ConnectionUri.RemoteName | vendor/github.com/dmacvicar/terraform-provider-libvirt/libvirt/uri/connection_uri.go:34-46 | a non-empty `name` query parameter as it is; otherwise the URI printed with the driver as scheme and no host or query |
| ConnectionUri.RemoteURLIsLocal | vendor/github.com/dmacvicar/terraform-provider-libvirt/libvirt/uri/connection_uri.go:34-46 | the URI the remote name is printed from keeps the driver, uses the UNIX socket and has no `name` parameter |
| ConnectionUri.RemoteNameIgnoresTransportAndHost | vendor/github.com/dmacvicar/terraform-provider-libvirt/libvirt/uri/connection_uri.go:34-46 | adding a transport to the scheme or changing the host does not change the remote name |
| ConnectionUri.NoQueryNoParameter | vendor/github.com/dmacvicar/terraform-provider-libvirt/libvirt/uri/connection_uri.go:37-45 | a URI without a query has no parameters |
| ConnectionUri.FormatLocal | vendor/github.com/dmacvicar/terraform-provider-libvirt/libvirt/uri/connection_uri.go:43-45 | a scheme with an absolute path only prints as `scheme://path` |
| ConnectionUri.SshSystemName | vendor/github.com/dmacvicar/terraform-provider-libvirt/libvirt/uri/connection_uri.go:34-46 | `qemu+ssh://<host>/system` is opened remotely as `qemu:///system` |
| ConnectionUri.RemoteNameAgain | vendor/github.com/dmacvicar/terraform-provider-libvirt/libvirt/uri/connection_uri.go:40-45 | called again on the URI it rewrote through the shared pointer, `RemoteName` gives the same name |
| ConnectionUri.RemoteNameKeepsUser | vendor/github.com/dmacvicar/terraform-provider-libvirt/libvirt/uri/connection_uri.go:40-45 | as written, a URI with a user and no `name` parameter is named `driver://user@…`: the user is not removed |
| ConnectionUri.SshUserSystemName | vendor/github.com/dmacvicar/terraform-provider-libvirt/libvirt/uri/connection_uri.go:34-46 | as written, `qemu+ssh://<user>@<host>/system` is opened remotely as `qemu://<user>@/system` |
| ConnectionUri.IntendedRemoteName | vendor/github.com/dmacvicar/terraform-provider-libvirt/libvirt/uri/connection_uri.go:30-33 | the remote name the method's comment describes: the `name` parameter, or the URI without transport, host, user and query; the same as `RemoteName` for a URI without a user |
| ConnectionUri.IntendedRemoteNameHasNoUser | vendor/github.com/dmacvicar/terraform-provider-libvirt/libvirt/uri/connection_uri.go:30-33 | corrected, a URI with an absolute path and no query or fragment is named `driver://path` whatever its user, so `qemu+ssh://<user>@<host>/system` opens `qemu:///system` |

## Left out

- Hypervisor I/O: the libvirt RPC connection is left out, including dialing, `NewClient`, `BuildClient`, `Close`, `GetConn` and `ListAllInterfaceAddresses`. Every call is an operation on the abstract store of `Hypervisor.Connect`. The URI logic of `NewClient` is `ConnectionUri`.
- The store's failure model: whether a hypervisor call fails is fixed per call by `fails`. A call that answers differently when repeated is not modelled, for example a domain that vanishes between two lookups or a pool refresh that succeeds on a later retry. Retried calls in `waitForSuccess` loops therefore succeed at once or time out.
- Clocks and waiting: `waitForSuccess` takes the attempt outcomes and the elapsed-time function as parameters. Sleeping is not modelled.
- Randomness: `rand.Read` and `rand.Intn` become parameters. The six MAC bytes, the WWN digit picks and the read error are inputs.
- XML: marshalling and unmarshalling of domain, volume, network and capabilities documents is left out. A document is its datatype value in `LibvirtXml`.
- Text parsing: `net.ParseCIDR` is not modelled, and the parsed network arrives with the address text. `url.Parse` percent-decoding, `url.Values` unescaping and the `;` separator in queries are left out too.
- `insertNumIntoIP` (called from lib/cidr/cidr.go) is not part of this model. It is stated as the base address plus the host number, modulo the address width.
- Kubernetes access: secrets are a map from namespace and name to data in `Kube`. A lookup can fail only with "not found".
- The cluster API's `UpdateStatus` call: the machines written back to the cluster are a list. The API's answer to a write is the input `updateErr`.
- Actuator.UpdateProviderStatus: returns the updated provider status instead of updating the Go struct in place.
- Provider-status encoding: `EncodeLibvirtMachineProviderStatus` and the codec decoding of provider config and status are left out. A decoded value or decoding error is carried in the machine as `Result`. `unexpected object` errors for a wrong group/version/kind are part of that decoding result.
- Processes and files: these are parameters or left out:
  - mkisofs and the ISO temporary files;
  - `createFile`'s file copying, where the local file system is a parameter;
  - guestfish process execution, where each command's output and error come from `ClientS390.Shell`;
  - the SSH session code of s390_ignition_remote.go, which is not part of this model.
- Stream upload: a volume upload is the image bytes stored under the volume key. The copier's count of bytes decides finish or abort.
- The `Leases` mutex: the reserved-lease table is modelled sequentially. The membership check outside the lock means allocation is not atomic, and no atomicity is claimed.
- Two snapshot mismatches follow the callees as shown:
  - client.go calls `setIgnition` with the architecture where ignition.go takes the pool name, so the model passes the client's pool name;
  - client.go calls `domainDefInit` with three arguments where domain.go takes two, so the model uses domain.go's two.
- The middle generation's helpers: `LookupDomainByName` and `DomainExists` in pkg/cloud/libvirt/actuators/machine/utils/client.go are word for word the functions of utils/domain.go, so `UtilsDomain` models them once.
- The middle generation's Ignition upload (pkg/cloud/libvirt/actuators/machine/utils/ignition.go) and its cloud-init file are not part of this model. Their effects on the definition are inputs of `UtilsClient.CreateDomain` (`World`). Its `setCloudInit` is bound to `LegacyCloudInit.SetCloudInit`, which has the same signature.
- The oldest generation: its `setNetworkInterfaces` (cloud/libvirt/actuators/machine/utils/domain.go:295-386) is the same code as the middle generation's and is modelled once, by `UtilsDomain.SetNetworkInterfaces`. The `updateOrAddHost` it calls lives in cloud/libvirt/actuators/machine/utils/network.go, which is not part of this model; it is bound to the middle generation's `UtilsNetwork.UpdateOrAddHost`, which has the same signature. The nil `client.libvirt` of the oldest helpers is the `null` connection.
- The oldest actuator (cloud/libvirt/actuators/machine/actuator.go) delegates to functions that are not part of this model.
- The events actuator, the controller and command-line entry points, the codec and scheme registration, tests, fixtures and the vendored vet analyzer have no provisioning behaviour and are left out.
- Go's fixed-width integers: `int`, `int64`, `uint` and `uint64` are bounded subset types. The two wrap-arounds that matter are written out: the actuator's `cidrOffset++` in `Actuator.NextOffset`, and the `uint(memory)` conversion in `domainDefInit`.
- LegacyCloudInit.BreakUserDataIntoChunks: requires a positive chunk size. With size 0 the Go code panics with "integer divide by zero" at its first statement, `userDataLen / chunkMaxSize` (cloud/libvirt/actuators/machine/utils/cloudinit.go:21); its only caller passes 1020.
- Actuator.VolumeThenDomain: actuator.go:182 calls a package-level `CreateVolume(name, pool, baseVolume, "", "qcow2", client)` that pkg/cloud/libvirt/actuators/machine/utils does not define (only the oldest generation's cloud/libvirt/actuators/machine/utils/volume.go:103 has that signature). The model binds the call to the `Client.CreateVolume` method of pkg/cloud/libvirt/actuators/machine/utils/client.go:211, with the pool, base volume, empty source and "qcow2" format as its input.
- Actuator.DomainOrCleanup: the clean-up `DeleteVolume(name, client)` of actuator.go:190 is likewise not defined in that package; the model binds it to `Client.DeleteVolume` of pkg/cloud/libvirt/actuators/machine/utils/client.go:323.
- Actuator.DeleteVolumeAndDomain: its `DeleteVolume(machine.Name, client)` (actuator.go:212) is bound the same way, to `Client.DeleteVolume` of pkg/cloud/libvirt/actuators/machine/utils/client.go:323.
- Strs.Quote: Go's `%q` escapes `"`, `\`, control and non-printable characters; the model prints the text between double quotes unescaped. Messages such as "can't retrieve volume %q", "can't find storage pool %q" and "secrets %q not found" therefore match the code only for names without such characters.
- ConnectionUri.RemoteName: `newURI := *u` copies a struct that holds the `*url.URL` pointer, so the method rewrites the scheme, host and query of the URI it is called on. URIs are values in this model, so that mutation is not captured; `ConnectionUri.RemoteNameAgain` shows that the second call in `NewClient` (pkg/cloud/libvirt/client/client.go:159-160) still gives the same name.
- UtilsNetwork.NetworkIPFor: uses the intended netmask check of the first Findings row, not the exclusive-or check as written (pkg/cloud/libvirt/actuators/machine/utils/network.go:189-192). A /31 or /127 address, which the code accepts, is refused with "only -1 IPs available". A /32 or /128 address is refused in both, but the model reports -2 available addresses where the code reports -3. `UtilsNetwork.ChecksDifferOnlyOneBitShort` proves that these are the only prefixes where the two checks disagree.
- UtilsNetwork.NetworkIPs: inherits the intended check from `NetworkIPFor`, so an address list holding a /31 or /127 network fails where the code builds its elements.
- UtilsNetwork.BuildNetworkDef: inherits the intended check, so a /31 or /127 address is refused where the code builds it into the definition (with a DHCP range that ends before it starts).
- UtilsNetwork.CreateNetwork: inherits the intended check, so a /31 or /127 network is refused with no call made where the code defines and starts it. The text "Error defining libvirt network: <err>" also leaves out the " - <XML document>" the code appends (network.go:249), because XML documents are not modelled as text.
- ClientDomain.CanonicalMachineName: the "Cannot find machine type" error leaves out the trailing " in <capabilities>" dump of the capabilities document (pkg/cloud/libvirt/client/domain.go:187), because capabilities are a value, not text.
- UtilsDomain.CanonicalMachineName: the "[WARN] Cannot find machine type" error leaves out the same trailing capabilities dump (pkg/cloud/libvirt/actuators/machine/utils/domain.go:192), for the same reason.
- ClientDomain.AllocateIP: returns "host numbers exhausted" once the host number reaches 2^63 - 1. The Go `int` counter would instead wrap to a negative number and go on trying; the model stops rather than model the wrap.
- `networkRange` (pkg/cloud/libvirt/actuators/machine/utils/network.go:274-277): for an IPv6 network, `net.IPv6zero.To16()` returns the package-wide `net.IPv6zero` slice itself, and the loop then writes the last address into it, changing that shared variable for the rest of the process. Addresses are values in this model, so that aliasing is not captured; each call sees an all-zero start.

## Findings

| source | as written | input that shows it | evidently intended | confidence | as-written member | corrected member |
|---|---|---|---|---|---|---|
| pkg/cloud/libvirt/actuators/machine/utils/network.go:189-192 | `ipsRange := 2 ^ bits - 2 ^ ones` uses Go's `^`, which is XOR, not a power. At the precedence of `-`, this gives `((2 xor bits) - 2) xor ones`, and the check `ipsRange < 4` then refuses only a full-length prefix | the IPv4 network 10.0.0.0/31: as written the range is 63 and the network is accepted, yet it has only two addresses and no room for a host plus a DHCP range | the range is 2^(bits-ones) addresses, and a network with fewer than four addresses (fewer than two host bits) is refused | not executed | UtilsNetwork.IpsRangeAsWritten, UtilsNetwork.AsWrittenRefusesOnlyFullPrefix, UtilsNetwork.SlashThirtyOneAccepted | UtilsNetwork.IpsRange, UtilsNetwork.TooStrictIff, UtilsNetwork.RangeInsideNetwork |
| cloud/libvirt/actuators/machine/utils/volume.go:161-171 | the pool lookup's error is checked only after `pool.Refresh(0)` has been called, so an unknown pool is refreshed through a nil pointer | `CreateVolume` with a pool name the hypervisor does not know, and neither source nor base volume: the call panics | the error "can't find storage pool '<pool>'" is returned before the pool is used, and nothing is created | not executed | LegacyVolume.OpenPoolAsWritten, LegacyVolume.CreateVolumeAsWritten | LegacyVolume.OpenPool, LegacyVolume.CreateVolume |
| vendor/github.com/dmacvicar/terraform-provider-libvirt/libvirt/uri/connection_uri.go:34-46 | the comment on `RemoteName` says the username is removed along with transport, host, port and parameters, but the copy only changes scheme, host and query, so `url.URL.String()` still prints `user@` | `qemu+ssh://user@host/system` without a `name` parameter gives `qemu://user@/system` | `qemu:///system`: the user is removed as the comment and libvirt's URI rules say | not executed | ConnectionUri.RemoteName, ConnectionUri.SshUserSystemName, ConnectionUri.RemoteNameKeepsUser | ConnectionUri.IntendedRemoteName, ConnectionUri.IntendedRemoteNameHasNoUser |
