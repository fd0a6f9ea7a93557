/** The cAdvisor types the collector reads (info/v1 and info/v2).
    Counters that Go keeps in uint64 are `nat` here: the collector only
    copies them, never computes with them. */
module Stats {
  import opened Wrappers

  datatype CpuUsage = CpuUsage(total: nat, user: nat, system: nat)

  datatype CpuStats = CpuStats(usage: CpuUsage, loadAverage: int)

  /** Connection counts per TCP state. */
  datatype TcpStat = TcpStat(
    established: nat, synSent: nat, synRecv: nat, finWait1: nat,
    finWait2: nat, timeWait: nat, close: nat, closeWait: nat,
    lastAck: nat, listen: nat, closing: nat)

  datatype InterfaceStats = InterfaceStats(
    name: string,
    rxBytes: nat, rxPackets: nat, rxErrors: nat, rxDropped: nat,
    txBytes: nat, txPackets: nat, txErrors: nat, txDropped: nat)

  datatype NetworkStats = NetworkStats(interfaces: seq<InterfaceStats>, tcp: TcpStat, tcp6: TcpStat)

  datatype MemoryStats = MemoryStats(
    cache: nat, usage: nat, rss: nat, swap: nat, workingSet: nat, failcnt: nat)

  /** The three filesystem counters are pointers in cAdvisor and may be nil. */
  datatype FilesystemStats = FilesystemStats(
    totalUsageBytes: Option<nat>, baseUsageBytes: Option<nat>, inodeUsage: Option<nat>)

  /** One statistics sample of a container. */
  datatype ContainerStats = ContainerStats(
    timestamp: int,
    cpu: CpuStats,
    network: NetworkStats,
    memory: MemoryStats,
    filesystem: FilesystemStats)

  /** Per-device block I/O counters, keyed by operation ("Read", "Write", ...). */
  datatype PerDiskStats = PerDiskStats(device: string, stats: map<string, nat>)

  datatype ContainerSpec = ContainerSpec(
    labels: map<string, string>,
    hasCpu: bool, hasMemory: bool, hasNetwork: bool, hasFilesystem: bool)

  /** A container as the manager returns it: its spec and its most recent
      samples, newest first. */
  datatype ContainerInfo = ContainerInfo(spec: ContainerSpec, stats: seq<ContainerStats>)
}
