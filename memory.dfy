/**
 * `gather_memory`: sysinfo's total and available memory, each multiplied by 1024,
 * with `used` as the saturating difference.
 */
module Memory {
  import opened Ints
  import opened Snapshots

  const SCALE := 1024

  /**
   * The snapshot for sysinfo's readings `total` and `avail`; every byte field
   * is the corresponding reading times 1024 and `used` never exceeds `total`.
   */
  function GatherMemory(total: u64, avail: u64): (m: MemoryData)
    requires total * SCALE < TWO_64 && avail * SCALE < TWO_64
    ensures m.totalBytes == total * SCALE
    ensures m.availableBytes == avail * SCALE
    ensures m.usedBytes == SaturatingSub(m.totalBytes, m.availableBytes)
    ensures m.usedBytes <= m.totalBytes && m.usedBytes % SCALE == 0
    ensures avail <= total ==> m.usedBytes + m.availableBytes == m.totalBytes
    ensures total < avail ==> m.usedBytes == 0
  {
    var used := SaturatingSub(total, avail);
    MemoryData(total * SCALE, avail * SCALE, used * SCALE)
  }
}
