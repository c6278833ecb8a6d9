/**
 * `gather_disk`: the capacity of the one volume "C:\", or nothing at all when the
 * capacity query fails or reports a zero total.
 */
module Disk {
  import opened Ints
  import opened Wrappers
  import opened Snapshots

  const DEVICE := "C:\\"

  /** What `GetDiskFreeSpaceExW` reports: whether it succeeded, and the two byte counts it writes. */
  datatype DiskSpace = DiskSpace(ok: bool, total: u64, free: u64)

  /** A disk entry with every field present and `used` the saturating difference. */
  predicate Populated(d: DiskData) {
    && d.device == DEVICE
    && d.totalBytes.Some? && d.freeBytes.Some? && d.usedBytes.Some?
    && d.usedBytes.value == SaturatingSub(d.totalBytes.value, d.freeBytes.value)
  }

  method GatherDisk(query: DiskSpace) returns (disks: seq<DiskData>)
    ensures disks == [] <==> !query.ok || query.total == 0
    ensures |disks| <= 1
    ensures forall d :: d in disks ==> Populated(d) && d.usedBytes.value <= d.totalBytes.value
    ensures disks != [] ==> disks[0].totalBytes == Some(query.total) && disks[0].freeBytes == Some(query.free)
  {
    // `free` and `total` stand for the out-parameters the Win32 call writes; they start at 0.
    var free: u64 := 0;
    var total: u64 := 0;
    var ok: bool;
    ok, total, free := query.ok, query.total, query.free;
    if !ok || total == 0 {
      return [];
    }
    var used := SaturatingSub(total, free);
    disks := [DiskData(DEVICE, Some(total), Some(free), Some(used))];
  }
}
