/**
 * The value objects one request assembles (`CPUData`, `MemoryData`, `DiskData`,
 * `HostData`, `NetData`, `MetricError`). The `f32` percentage fields are not modelled.
 */
module Snapshots {
  import opened Ints
  import opened Wrappers

  datatype CpuData = CpuData(
    physicalCore: nat,
    logicalCore: nat,
    frequency: u64,
    currentFrequency: Option<u64>,
    temperatureC: Option<real>)

  datatype MemoryData = MemoryData(totalBytes: u64, availableBytes: u64, usedBytes: u64)

  datatype DiskData = DiskData(
    device: string,
    totalBytes: Option<u64>,
    freeBytes: Option<u64>,
    usedBytes: Option<u64>)

  datatype HostData = HostData(os: string, platform: string, kernelVersion: string, prettyName: string)

  datatype NetData = NetData(
    name: string,
    bytesSent: u64, bytesRecv: u64,
    packetsSent: u64, packetsRecv: u64,
    errIn: u64, errOut: u64,
    dropIn: u64, dropOut: u64,
    fifoIn: u64, fifoOut: u64)

  /** One failed reading: the metric's identifier path and a message. */
  datatype MetricError = MetricError(metric: seq<string>, err: string)
}
