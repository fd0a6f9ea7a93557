/** The metric catalog of cadvisor/metrics.go.

    Go keeps seven literal maps from a metric key to a record of closures
    (namespace builder, extractor) plus a unit and a description. Here each
    map entry is a constructor of an enumerated type, the closures are
    functions dispatching on that constructor, and each map is the
    sequence of its entries in source order. Go's three record types are
    kept apart: Metric (extracts from a whole sample), IfaceMetric (from
    one network interface) and DiskIoMetric (from one block device). */
module Metrics {
  import opened Wrappers
  import opened Plugin
  import opened Stats

  const PluginVendor: string := "grafanalabs"
  const PluginName: string := "cadvisor"

  /** The six leading namespace elements every metric shares: vendor,
      plugin, "container", then the pod namespace, pod name and container
      name. */
  function ContainerNamespace(ns: string, pn: string, cn: string): Namespace
  {
    [PluginVendor, PluginName, "container", ns, pn, cn]
  }

  /** The statistic families, named by namespace element 6. "load" has a
      subscription list in the manifest but no table in the catalog. */
  datatype Family = Tcp | Tcp6 | Cpu | Load | Iface | Fs | Mem | DiskIo
  {
    function Name(): string
    {
      match this
      case Tcp => "tcp"
      case Tcp6 => "tcp6"
      case Cpu => "cpu"
      case Load => "load"
      case Iface => "iface"
      case Fs => "fs"
      case Mem => "mem"
      case DiskIo => "diskio"
    }

    /** The families whose key sits at element 8, behind a device element. */
    predicate PerDevice()
    {
      this == Iface || this == DiskIo
    }
  }

  /** The eleven TCP states counted for both tcp and tcp6. */
  datatype TcpState =
    | Established | SynSent | SynRecv | FinWait1 | FinWait2 | TimeWait
    | Close | CloseWait | LastAck | Listen | Closing
  {
    function Name(): string
    {
      match this
      case Established => "ESTABLISHED"
      case SynSent => "SYN_SENT"
      case SynRecv => "SYN_RECV"
      case FinWait1 => "FIN_WAIT_1"
      case FinWait2 => "FIN_WAIT_2"
      case TimeWait => "TIME_WAIT"
      case Close => "CLOSE"
      case CloseWait => "CLOSE_WAIT"
      case LastAck => "LAST_ACK"
      case Listen => "LISTEN"
      case Closing => "CLOSING"
    }

    function Count(t: TcpStat): nat
    {
      match this
      case Established => t.established
      case SynSent => t.synSent
      case SynRecv => t.synRecv
      case FinWait1 => t.finWait1
      case FinWait2 => t.finWait2
      case TimeWait => t.timeWait
      case Close => t.close
      case CloseWait => t.closeWait
      case LastAck => t.lastAck
      case Listen => t.listen
      case Closing => t.closing
    }
  }

  datatype CpuStat = Total | User | System | LoadAverage

  datatype MemStat = Cache | Usage | Rss | Swap | WorkingSet | Failcnt

  datatype FsStat = TotalUsage | BaseUsage | InodeUsage

  /** An entry of cpuMap, tcpMap, tcp6Map, memMap or fsMap. */
  datatype Metric =
    | CpuMetric(cpu: CpuStat)
    | TcpMetric(tcp: TcpState)
    | Tcp6Metric(tcp6: TcpState)
    | MemMetric(mem: MemStat)
    | FsMetric(fs: FsStat)
  {
    /** The family of the map holding the entry: never a per-device one. */
    function Family(): (r: Family)
      ensures !r.PerDevice()
    {
      match this
      case CpuMetric(_) => Cpu
      case TcpMetric(_) => Tcp
      case Tcp6Metric(_) => Tcp6
      case MemMetric(_) => Mem
      case FsMetric(_) => Fs
    }

    /** The entry's key in its map. */
    function Key(): string
    {
      match this
      case CpuMetric(Total) => "total"
      case CpuMetric(User) => "user"
      case CpuMetric(System) => "system"
      case CpuMetric(LoadAverage) => "load"
      case TcpMetric(t) => t.Name()
      case Tcp6Metric(t) => t.Name()
      case MemMetric(Cache) => "cache"
      case MemMetric(Usage) => "usage"
      case MemMetric(Rss) => "rss"
      case MemMetric(Swap) => "swap"
      case MemMetric(WorkingSet) => "working_set"
      case MemMetric(Failcnt) => "failcnt"
      case FsMetric(TotalUsage) => "total_usage"
      case FsMetric(BaseUsage) => "base_usage"
      case FsMetric(InodeUsage) => "inode_usage"
    }

    /** What the namespace builder appends to the container namespace: the
        family and the key, and for the three CPU time counters "usage". */
    function StaticElements(): seq<string>
    {
      [Family().Name(), Key()] + (if CpuMetric? && cpu != LoadAverage then ["usage"] else [])
    }

    function Namespace(ns: string, pn: string, cn: string): Namespace
    {
      ContainerNamespace(ns, pn, cn) + StaticElements()
    }

    function Unit(): string
    {
      match this
      case CpuMetric(LoadAverage) => "load"
      case CpuMetric(_) => "ns"
      case TcpMetric(_) => "event"
      case Tcp6Metric(_) => "event"
      case MemMetric(_) => "B"
      case FsMetric(InodeUsage) => "inodes"
      case FsMetric(_) => "B"
    }

    function Description(): string
    {
      match this
      case CpuMetric(Total) => "total CPU usage"
      case CpuMetric(User) => "user CPU usage"
      case CpuMetric(System) => "system CPU usage"
      case CpuMetric(LoadAverage) => " Load is smoothed over the last 10 seconds. Instantaneous value can be read"
      case TcpMetric(t) => "Count of TCP connections in state '" + t.Name() + "'"
      case Tcp6Metric(t) => "Count of TCP6 connections in state '" + t.Name() + "'"
      case MemMetric(Cache) => "Number of bytes of page cache memory."
      case MemMetric(Usage) => "Current memory usage, this includes all memory regardless of when it was accessed."
      case MemMetric(Rss) => "The amount of anonymous and swap cache memory (includes transparent hugepages)"
      case MemMetric(Swap) => "The amount of swap currently used by the processes in this cgroup"
      case MemMetric(WorkingSet) => "The amount of working set memory, this includes recently accessed memory, dirty memory, and kernel memory."
      case MemMetric(Failcnt) => ""
      case FsMetric(TotalUsage) => "Total Number of bytes consumed by container."
      case FsMetric(BaseUsage) => "Total Number of bytes consumed by container."
      case FsMetric(InodeUsage) => "Number of inodes used within the container's root filesystem."
    }

    /** The filesystem extractors dereference a pointer; every other
        extractor reads a plain field. */
    predicate CanExtract(s: ContainerStats)
    {
      match this
      case FsMetric(TotalUsage) => s.filesystem.totalUsageBytes.Some?
      case FsMetric(BaseUsage) => s.filesystem.baseUsageBytes.Some?
      case FsMetric(InodeUsage) => s.filesystem.inodeUsage.Some?
      case _ => true
    }

    /** The extractor: reads the entry's field of the sample, unconverted. */
    function Data(s: ContainerStats): Value
      requires CanExtract(s)
    {
      match this
      case CpuMetric(Total) => Uint(s.cpu.usage.total)
      case CpuMetric(User) => Uint(s.cpu.usage.user)
      case CpuMetric(System) => Uint(s.cpu.usage.system)
      case CpuMetric(LoadAverage) => Int(s.cpu.loadAverage)
      case TcpMetric(t) => Uint(t.Count(s.network.tcp))
      case Tcp6Metric(t) => Uint(t.Count(s.network.tcp6))
      case MemMetric(Cache) => Uint(s.memory.cache)
      case MemMetric(Usage) => Uint(s.memory.usage)
      case MemMetric(Rss) => Uint(s.memory.rss)
      case MemMetric(Swap) => Uint(s.memory.swap)
      case MemMetric(WorkingSet) => Uint(s.memory.workingSet)
      case MemMetric(Failcnt) => Uint(s.memory.failcnt)
      case FsMetric(TotalUsage) => Uint(s.filesystem.totalUsageBytes.value)
      case FsMetric(BaseUsage) => Uint(s.filesystem.baseUsageBytes.value)
      case FsMetric(InodeUsage) => Uint(s.filesystem.inodeUsage.value)
    }
  }

  /** The builder shared by the per-device families: container namespace,
      family, a dynamic device element whose value starts as "*", the key;
      the device element is then overwritten with `name` unless `name` is
      the wildcard itself. */
  function DeviceNamespace(family: Family, key: string, ns: string, pn: string, cn: string, name: string): Namespace
  {
    var metName := ContainerNamespace(ns, pn, cn) + [family.Name(), "*", key];
    if name != "*" then metName[7 := name] else metName
  }

  /** An entry of ifaceMap. */
  datatype IfaceMetric =
    | InBytes | InPackets | InErrors | InDropped
    | OutBytes | OutPackets | OutErrors | OutDropped
  {
    function Key(): string
    {
      match this
      case InBytes => "in_bytes"
      case InPackets => "in_packets"
      case InErrors => "in_errors"
      case InDropped => "in_dropped"
      case OutBytes => "out_bytes"
      case OutPackets => "out_packets"
      case OutErrors => "out_errors"
      case OutDropped => "out_dropped"
    }

    function Namespace(ns: string, pn: string, cn: string, name: string): Namespace
    {
      DeviceNamespace(Iface, Key(), ns, pn, cn, name)
    }

    function Unit(): string
    {
      match this
      case InBytes => "B"
      case OutBytes => "B"
      case _ => "pckt"
    }

    function Description(): string
    {
      match this
      case InBytes => "Cumulative count of bytes received"
      case InPackets => "Cumulative count of packets received"
      case InErrors => "Cumulative count of errors received by the container"
      case InDropped => "Cumulative count of bytes received by the container"
      case OutBytes => "Cumulative count of bytes transmitted"
      case OutPackets => "Cumulative count of packets transmitted"
      case OutErrors => "Cumulative count of errors transmitted by the container"
      case OutDropped => "Cumulative count of bytes transmitted by the container"
    }

    function Data(i: InterfaceStats): Value
    {
      match this
      case InBytes => Uint(i.rxBytes)
      case InPackets => Uint(i.rxPackets)
      case InErrors => Uint(i.rxErrors)
      case InDropped => Uint(i.rxDropped)
      case OutBytes => Uint(i.txBytes)
      case OutPackets => Uint(i.txPackets)
      case OutErrors => Uint(i.txErrors)
      case OutDropped => Uint(i.txDropped)
    }
  }

  /** Go's `d.Stats[op]`: a missing operation reads as zero. */
  function DiskStat(d: PerDiskStats, op: string): nat
  {
    if op in d.stats then d.stats[op] else 0
  }

  /** An entry of diskIoMap. */
  datatype DiskIoMetric =
    | ReadBytes | Reads | QueuedReads | SectorReads | MergedReads | ReadTime
    | WriteBytes | Writes | QueuedWrites | SectorWrites | MergedWrites | WriteTime
  {
    function Key(): string
    {
      match this
      case ReadBytes => "read_bytes"
      case Reads => "reads"
      case QueuedReads => "queued_reads"
      case SectorReads => "sector_reads"
      case MergedReads => "merged_reads"
      case ReadTime => "read_time"
      case WriteBytes => "write_bytes"
      case Writes => "writes"
      case QueuedWrites => "queued_writes"
      case SectorWrites => "sector_writes"
      case MergedWrites => "merged_writes"
      case WriteTime => "write_time"
    }

    function Namespace(ns: string, pn: string, cn: string, name: string): Namespace
    {
      DeviceNamespace(DiskIo, Key(), ns, pn, cn, name)
    }

    function Unit(): string
    {
      match this
      case ReadBytes => "B"
      case WriteBytes => "B"
      case ReadTime => "ns"
      case WriteTime => "ns"
      case _ => "event"
    }

    function Description(): string
    {
      match this
      case ReadBytes => "Total Number of bytes read"
      case Reads => "Total number of reads completed"
      case QueuedReads => "Total Number of reads queued"
      case SectorReads => "Total number of sector reads completed"
      case MergedReads => "Total number of reads merged"
      case ReadTime => "Total number of reads completed"
      case WriteBytes => "Total Number of bytes write"
      case Writes => "Total number of writes completed"
      case QueuedWrites => "Total Number of writes queued"
      case SectorWrites => "Total number of sector writes completed"
      case MergedWrites => "Total number of writes merged"
      case WriteTime => "Total amount of time spent writing"
    }

    function Data(d: PerDiskStats): Value
    {
      match this
      case ReadBytes => Uint(DiskStat(d, "Read"))
      case Reads => Uint(DiskStat(d, "Read"))
      case QueuedReads => Uint(DiskStat(d, "Read"))
      case SectorReads => Uint(DiskStat(d, "Read"))
      case MergedReads => Uint(DiskStat(d, "Read"))
      case ReadTime => Uint(DiskStat(d, "Read"))
      case WriteBytes => Uint(DiskStat(d, "Write"))
      case Writes => Uint(DiskStat(d, "Write"))
      case QueuedWrites => Uint(DiskStat(d, "Write"))
      case SectorWrites => Uint(DiskStat(d, "Write"))
      case MergedWrites => Uint(DiskStat(d, "Write"))
      case WriteTime => Uint(DiskStat(d, "Write"))
    }
  }

  // The seven maps, entry by entry in source order.

  const CpuMap: seq<Metric> :=
    [CpuMetric(Total), CpuMetric(User), CpuMetric(System), CpuMetric(LoadAverage)]

  const TcpMap: seq<Metric> :=
    [TcpMetric(Established), TcpMetric(SynSent), TcpMetric(SynRecv), TcpMetric(FinWait1),
     TcpMetric(FinWait2), TcpMetric(TimeWait), TcpMetric(Close), TcpMetric(CloseWait),
     TcpMetric(LastAck), TcpMetric(Listen), TcpMetric(Closing)]

  const Tcp6Map: seq<Metric> :=
    [Tcp6Metric(Established), Tcp6Metric(SynSent), Tcp6Metric(SynRecv), Tcp6Metric(FinWait1),
     Tcp6Metric(FinWait2), Tcp6Metric(TimeWait), Tcp6Metric(Close), Tcp6Metric(CloseWait),
     Tcp6Metric(LastAck), Tcp6Metric(Listen), Tcp6Metric(Closing)]

  const MemMap: seq<Metric> :=
    [MemMetric(Cache), MemMetric(Usage), MemMetric(Rss), MemMetric(Swap),
     MemMetric(WorkingSet), MemMetric(Failcnt)]

  const FsMap: seq<Metric> :=
    [FsMetric(TotalUsage), FsMetric(BaseUsage), FsMetric(InodeUsage)]

  const DiskIoMap: seq<DiskIoMetric> :=
    [ReadBytes, Reads, QueuedReads, SectorReads, MergedReads, ReadTime,
     WriteBytes, Writes, QueuedWrites, SectorWrites, MergedWrites, WriteTime]

  const IfaceMap: seq<IfaceMetric> :=
    [InBytes, InPackets, InErrors, InDropped, OutBytes, OutPackets, OutErrors, OutDropped]

  /** The map holding a scalar family's entries (none for the others). */
  function ScalarMap(f: Family): seq<Metric>
  {
    match f
    case Cpu => CpuMap
    case Tcp => TcpMap
    case Tcp6 => Tcp6Map
    case Mem => MemMap
    case Fs => FsMap
    case _ => []
  }

  /** Go's `m, ok := table[key]`: the entry stored under key, if any. */
  function Find<M>(table: seq<M>, keyOf: M -> string, key: string): (r: Option<M>)
    ensures r.Some? ==> r.value in table && keyOf(r.value) == key
    ensures r.None? ==> forall m :: m in table ==> keyOf(m) != key
  {
    if table == [] then None
    else if keyOf(table[0]) == key then Some(table[0])
    else Find(table[1..], keyOf, key)
  }

  function Lookup(table: seq<Metric>, key: string): (r: Option<Metric>)
    ensures r.Some? ==> r.value in table && r.value.Key() == key
    ensures r.None? ==> forall m :: m in table ==> m.Key() != key
  {
    var keyOf := (m: Metric) => m.Key();
    var r := Find(table, keyOf, key);
    assert r.None? ==> forall m :: m in table ==> m.Key() != key by {
      if r.None? {
        forall m | m in table ensures m.Key() != key {
          assert keyOf(m) != key;
        }
      }
    }
    r
  }

  function LookupIface(key: string): (r: Option<IfaceMetric>)
    ensures r.Some? ==> r.value.Key() == key
    ensures r.None? ==> forall m: IfaceMetric :: m.Key() != key
  {
    var r := Find(IfaceMap, (m: IfaceMetric) => m.Key(), key);
    assert r.None? ==> forall m: IfaceMetric :: m.Key() != key by {
      if r.None? {
        forall m: IfaceMetric ensures m.Key() != key {
          IfaceMapComplete(m);
        }
      }
    }
    r
  }

  // ----- Properties of the catalog -----

  /** Every scalar entry sits in the map of its own family. */
  lemma ScalarMapComplete(m: Metric)
    ensures m in ScalarMap(m.Family())
  {
    match m
    case CpuMetric(c) =>
      match c {
        case Total =>
        case User =>
        case System =>
        case LoadAverage =>
      }
    case TcpMetric(t) => TcpStateInMap(t);
    case Tcp6Metric(t) => TcpStateInMap(t);
    case MemMetric(x) =>
      match x {
        case Cache =>
        case Usage =>
        case Rss =>
        case Swap =>
        case WorkingSet =>
        case Failcnt =>
      }
    case FsMetric(x) =>
      match x {
        case TotalUsage =>
        case BaseUsage =>
        case InodeUsage =>
      }
  }

  /** A scalar map holds only entries of its own family. */
  lemma ScalarMapFamily(f: Family, m: Metric)
    requires m in ScalarMap(f)
    ensures m.Family() == f
  {
  }

  lemma TcpStateInMap(t: TcpState)
    ensures TcpMetric(t) in TcpMap && Tcp6Metric(t) in Tcp6Map
  {
    match t
    case Established =>
    case SynSent =>
    case SynRecv =>
    case FinWait1 =>
    case FinWait2 =>
    case TimeWait =>
    case Close =>
    case CloseWait =>
    case LastAck =>
    case Listen =>
    case Closing =>
  }

  lemma IfaceMapComplete(m: IfaceMetric)
    ensures m in IfaceMap
  {
  }

  lemma DiskIoMapComplete(m: DiskIoMetric)
    ensures m in DiskIoMap
  {
  }

  /** Within one family, no two entries share a key (Go map keys are unique). */
  lemma KeysIdentifyEntries(m1: Metric, m2: Metric)
    requires m1.Family() == m2.Family() && m1.Key() == m2.Key()
    ensures m1 == m2
  {
  }

  /** lookup(family, key) finds exactly the entry with that key. */
  lemma LookupFindsEntry(m: Metric)
    ensures Lookup(ScalarMap(m.Family()), m.Key()) == Some(m)
  {
    ScalarMapComplete(m);
    var r := Lookup(ScalarMap(m.Family()), m.Key());
    if r.Some? {
      ScalarMapFamily(m.Family(), r.value);
      KeysIdentifyEntries(r.value, m);
    }
  }

  /** The interface keys are distinct too. */
  lemma IfaceKeysIdentifyEntries(m1: IfaceMetric, m2: IfaceMetric)
    requires m1.Key() == m2.Key()
    ensures m1 == m2
  {
  }

  /** The interface lookup finds exactly the entry with that key. */
  lemma LookupIfaceFindsEntry(m: IfaceMetric)
    ensures LookupIface(m.Key()) == Some(m)
  {
    var r := LookupIface(m.Key());
    if r.Some? {
      IfaceKeysIdentifyEntries(r.value, m);
    }
  }

  /** The positional layout of a scalar namespace: container namespace,
      family at 6, key at 7, and "usage" at 8 for the CPU time counters. */
  lemma ScalarNamespaceLayout(m: Metric, ns: string, pn: string, cn: string)
    ensures var r := m.Namespace(ns, pn, cn);
      && |r| == (if m.CpuMetric? && m.cpu != LoadAverage then 9 else 8)
      && r[..6] == [PluginVendor, PluginName, "container", ns, pn, cn]
      && r[6] == m.Family().Name()
      && r[7] == m.Key()
      && (|r| == 9 ==> r[8] == "usage")
  {
  }

  /** The positional layout of a per-device namespace: family at 6, the
      device name at 7 (the wildcard stays a wildcard), key at 8. */
  lemma DeviceNamespaceLayout(family: Family, key: string, ns: string, pn: string, cn: string, name: string)
    ensures var r := DeviceNamespace(family, key, ns, pn, cn, name);
      && |r| == 9
      && r[..6] == [PluginVendor, PluginName, "container", ns, pn, cn]
      && r[6] == family.Name()
      && r[7] == name
      && r[8] == key
  {
  }

  /** Renaming the device touches element 7 and nothing else. */
  lemma DeviceRenameTouchesOnlyElement7(family: Family, key: string, ns: string, pn: string, cn: string, a: string, b: string)
    ensures var ra := DeviceNamespace(family, key, ns, pn, cn, a);
            var rb := DeviceNamespace(family, key, ns, pn, cn, b);
      && |ra| == |rb|
      && (forall i :: 0 <= i < |ra| && i != 7 ==> ra[i] == rb[i])
      && (ra == rb <==> a == b)
  {
    DeviceNamespaceLayout(family, key, ns, pn, cn, a);
    DeviceNamespaceLayout(family, key, ns, pn, cn, b);
  }

  /** Units are fixed per family: CPU time in raw nanoseconds, load in
      "load", every TCP counter an "event", every memory counter (failcnt
      included) in bytes, filesystem usage in bytes or inodes. */
  lemma UnitsByFamily(m: Metric)
    ensures m.Family() == Cpu ==> m.Unit() == (if m.cpu == LoadAverage then "load" else "ns")
    ensures m.Family() in {Tcp, Tcp6} ==> m.Unit() == "event"
    ensures m.Family() == Mem ==> m.Unit() == "B"
    ensures m.Family() == Fs ==> m.Unit() == (if m.fs == InodeUsage then "inodes" else "B")
  {
  }

  /** The CPU extractors hand out cAdvisor's counters unconverted. */
  lemma CpuValuesAreRaw(s: ContainerStats)
    ensures CpuMetric(Total).Data(s) == Uint(s.cpu.usage.total)
    ensures CpuMetric(User).Data(s) == Uint(s.cpu.usage.user)
    ensures CpuMetric(System).Data(s) == Uint(s.cpu.usage.system)
    ensures CpuMetric(LoadAverage).Data(s) == Int(s.cpu.loadAverage)
  {
  }

  /** `s` begins with `prefix`. */
  predicate StartsWith(prefix: string, s: string)
  {
    |prefix| == 0 || (|s| > 0 && s[0] == prefix[0] && StartsWith(prefix[1..], s[1..]))
  }

  /** diskIoMap lists six read-side counters and then their six
      write-side twins, in the same order and with the same units; every
      read-side extractor returns the "Read" counter of the device and
      every write-side one the "Write" counter, whichever key asked. */
  lemma DiskIoSidesPickTheirCounter(i: nat, d: PerDiskStats)
    requires i < 6
    ensures |DiskIoMap| == 12
    ensures DiskIoMap[i].Unit() == DiskIoMap[i + 6].Unit()
    ensures DiskIoMap[i].Data(d) == Uint(DiskStat(d, "Read"))
    ensures DiskIoMap[i + 6].Data(d) == Uint(DiskStat(d, "Write"))
  {
  }

  /** `in_` keys report received (Rx) counters, `out_` keys transmitted
      (Tx) ones. */
  lemma IfaceKeysPickTheirDirection(m: IfaceMetric, i: InterfaceStats)
    ensures StartsWith("in_", m.Key()) != StartsWith("out_", m.Key())
    ensures StartsWith("in_", m.Key()) ==>
      m.Data(i) in [Uint(i.rxBytes), Uint(i.rxPackets), Uint(i.rxErrors), Uint(i.rxDropped)]
    ensures StartsWith("out_", m.Key()) ==>
      m.Data(i) in [Uint(i.txBytes), Uint(i.txPackets), Uint(i.txErrors), Uint(i.txDropped)]
  {
    match m
    case InBytes => assert StartsWith("in_", "in_bytes") && !StartsWith("out_", "in_bytes");
    case InPackets => assert StartsWith("in_", "in_packets") && !StartsWith("out_", "in_packets");
    case InErrors => assert StartsWith("in_", "in_errors") && !StartsWith("out_", "in_errors");
    case InDropped => assert StartsWith("in_", "in_dropped") && !StartsWith("out_", "in_dropped");
    case OutBytes => assert !StartsWith("in_", "out_bytes") && StartsWith("out_", "out_bytes");
    case OutPackets => assert !StartsWith("in_", "out_packets") && StartsWith("out_", "out_packets");
    case OutErrors => assert !StartsWith("in_", "out_errors") && StartsWith("out_", "out_errors");
    case OutDropped => assert !StartsWith("in_", "out_dropped") && StartsWith("out_", "out_dropped");
  }
}
