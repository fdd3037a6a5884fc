/**
 * Storage-volume helpers of the machine actuator's helper package
 * (pkg/cloud/libvirt/actuators/machine/utils/volume.go).  Apart from the
 * volume size constant and a `newDefVolume` without a name parameter, the
 * file repeats the newest client's helpers word for word; those are the
 * members of `ClientVolume`.
 */
module UtilsVolume {
  import opened Wrappers
  import opened LibvirtXml
  import ClientVolume

  /** The fixed capacity a volume layered on a base volume gets (17706254336 bytes, about 16.5 GiB). */
  const Size: uint64 := 17706254336

  /**
   * `newDefVolume()`: an unnamed qcow2 volume, mode 644, of one byte,
   * without backing store; the newest client's `newDefVolume` with the
   * empty name.
   */
  function NewDefVolume(): (v: VolumeDef)
    ensures v.name == "" && v.format == "qcow2" && v.mode == "644"
    ensures v.capacity == Capacity("bytes", 1) && v.backing == None
    ensures v == ClientVolume.NewDefVolume("")
  {
    VolumeDef("", "qcow2", "644", Capacity("bytes", 1), None)
  }
}
