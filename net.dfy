/** `gather_net`: two fixed interfaces whose counters are all zero. */
module Net {
  import opened Snapshots

  predicate AllZero(n: NetData) {
    && n.bytesSent == 0 && n.bytesRecv == 0
    && n.packetsSent == 0 && n.packetsRecv == 0
    && n.errIn == 0 && n.errOut == 0
    && n.dropIn == 0 && n.dropOut == 0
    && n.fifoIn == 0 && n.fifoOut == 0
  }

  /** `NetData { name, ..Default::default() }`. */
  function Named(name: string): (n: NetData)
    ensures n.name == name && AllZero(n)
  {
    NetData(name, 0, 0, 0, 0, 0, 0, 0, 0, 0, 0)
  }

  function GatherNet(): (interfaces: seq<NetData>)
    ensures |interfaces| == 2
    ensures interfaces[0].name == "lo" && interfaces[1].name == "eth0"
    ensures forall i :: 0 <= i < |interfaces| ==> AllZero(interfaces[i])
  {
    [Named("lo"), Named("eth0")]
  }
}
