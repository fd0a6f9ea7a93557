/** The collector of cadvisor/collector.go: which containers are reported,
    what one collection pass emits for the current manifest, and the
    catalog advertised to Snap. */
module Collection {
  import opened Wrappers
  import opened Durations
  import opened Plugin
  import opened Stats
  import opened Metrics
  import opened Manifests

  // Kubernetes labels that identify a container.
  const PodNameLabel: string := "io.kubernetes.pod.name"
  const PodNamespaceLabel: string := "io.kubernetes.pod.namespace"
  const ContainerNameLabel: string := "io.kubernetes.container.name"

  /** checkContainer: the identity [namespace, pod, container] of a
      container carrying all three Kubernetes labels; three empty strings
      and false as soon as one is missing. */
  function CheckContainer(labels: map<string, string>): (r: (seq<string>, bool))
    ensures |r.0| == 3
    ensures r.1 <==> PodNameLabel in labels && PodNamespaceLabel in labels && ContainerNameLabel in labels
    ensures r.1 ==> r.0 == [labels[PodNamespaceLabel], labels[PodNameLabel], labels[ContainerNameLabel]]
    ensures !r.1 ==> r.0 == ["", "", ""]
  {
    if PodNameLabel !in labels then (["", "", ""], false)
    else if PodNamespaceLabel !in labels then (["", "", ""], false)
    else if ContainerNameLabel !in labels then (["", "", ""], false)
    else ([labels[PodNamespaceLabel], labels[PodNameLabel], labels[ContainerNameLabel]], true)
  }

  // ----- What one collection pass emits -----

  /** The record for a scalar entry: its namespace filled with the
      container's identity, its description and unit, the value read from
      the first sample and that sample's timestamp. Config stays empty. */
  function ScalarRecord(m: Metric, id: seq<string>, s: ContainerStats): PluginMetric
    requires |id| == 3 && m.CanExtract(s)
  {
    PluginMetric(m.Namespace(id[0], id[1], id[2]), m.Description(), m.Unit(),
                 Some(m.Data(s)), Some(s.timestamp), map[])
  }

  /** The record for an interface entry and one interface of the sample. */
  function IfaceRecord(m: IfaceMetric, id: seq<string>, i: InterfaceStats, timestamp: int): PluginMetric
    requires |id| == 3
  {
    PluginMetric(m.Namespace(id[0], id[1], id[2], i.name), m.Description(), m.Unit(),
                 Some(m.Data(i)), Some(timestamp), map[])
  }

  /** Every entry of f's map that keys select can read its value from s:
      the filesystem extractors dereference pointers that may be nil,
      and Go panics on a nil one. */
  predicate Extractable(f: Family, keys: seq<string>, s: ContainerStats)
  {
    forall m :: m in ScalarMap(f) && m.Key() in keys ==> m.CanExtract(s)
  }

  lemma ExtractablePrefix(f: Family, keys: seq<string>, j: nat, s: ContainerStats)
    requires Extractable(f, keys, s) && j <= |keys|
    ensures Extractable(f, keys[..j], s)
  {
    forall m | m in ScalarMap(f) && m.Key() in keys[..j] ensures m.CanExtract(s) {
      var k :| 0 <= k < j && keys[..j][k] == m.Key();
      assert keys[k] == m.Key();
    }
  }

  /** Only the filesystem family can fail to extract. */
  lemma NonFsExtractable(f: Family, keys: seq<string>, s: ContainerStats)
    requires f != Fs
    ensures Extractable(f, keys, s)
  {
    forall m | m in ScalarMap(f) ensures m.CanExtract(s) {
      ScalarMapFamily(f, m);
    }
  }

  /** The records for the subscribed keys of a scalar family, key by key
      in subscription order; a key missing from the map is logged and
      skipped. */
  function ScalarRecords(f: Family, keys: seq<string>, id: seq<string>, s: ContainerStats): seq<PluginMetric>
    requires |id| == 3 && Extractable(f, keys, s)
  {
    if keys == [] then []
    else
      ExtractablePrefix(f, keys, |keys| - 1, s);
      ScalarRecords(f, keys[..|keys| - 1], id, s)
        + match Lookup(ScalarMap(f), keys[|keys| - 1])
          case None => []
          case Some(m) => [ScalarRecord(m, id, s)]
  }

  /** One more key: its record, if the map knows it, goes to the end. */
  lemma ScalarRecordsStep(f: Family, keys: seq<string>, j: nat, id: seq<string>, s: ContainerStats)
    requires |id| == 3 && Extractable(f, keys, s) && j < |keys|
    ensures Extractable(f, keys[..j], s) && Extractable(f, keys[..j + 1], s)
    ensures Lookup(ScalarMap(f), keys[j]).Some? ==> Lookup(ScalarMap(f), keys[j]).value.CanExtract(s)
    ensures ScalarRecords(f, keys[..j + 1], id, s) == ScalarRecords(f, keys[..j], id, s)
      + match Lookup(ScalarMap(f), keys[j])
        case None => []
        case Some(m) => [ScalarRecord(m, id, s)]
  {
    ExtractablePrefix(f, keys, j, s);
    ExtractablePrefix(f, keys, j + 1, s);
    assert keys[..j + 1][..j] == keys[..j];
    assert keys[j] in keys;
  }

  /** One interface entry over the interfaces of the sample, in order. */
  function IfaceFanout(m: IfaceMetric, id: seq<string>, ifs: seq<InterfaceStats>, timestamp: int): seq<PluginMetric>
    requires |id| == 3
  {
    if ifs == [] then []
    else IfaceFanout(m, id, ifs[..|ifs| - 1], timestamp) + [IfaceRecord(m, id, ifs[|ifs| - 1], timestamp)]
  }

  lemma IfaceFanoutStep(m: IfaceMetric, id: seq<string>, ifs: seq<InterfaceStats>, j: nat, timestamp: int)
    requires |id| == 3 && j < |ifs|
    ensures IfaceFanout(m, id, ifs[..j + 1], timestamp) == IfaceFanout(m, id, ifs[..j], timestamp) + [IfaceRecord(m, id, ifs[j], timestamp)]
  {
    assert ifs[..j + 1][..j] == ifs[..j];
  }

  /** The records of one interface key: its entry over every interface,
      or nothing when ifaceMap does not know the key. */
  function IfaceKeyRecords(key: string, id: seq<string>, s: ContainerStats): seq<PluginMetric>
    requires |id| == 3
  {
    match LookupIface(key)
    case None => []
    case Some(m) => IfaceFanout(m, id, s.network.interfaces, s.timestamp)
  }

  /** The interface records: key-major, interface-minor. */
  function IfaceRecords(keys: seq<string>, id: seq<string>, s: ContainerStats): seq<PluginMetric>
    requires |id| == 3
  {
    if keys == [] then []
    else IfaceRecords(keys[..|keys| - 1], id, s) + IfaceKeyRecords(keys[|keys| - 1], id, s)
  }

  lemma IfaceRecordsStep(keys: seq<string>, j: nat, id: seq<string>, s: ContainerStats)
    requires |id| == 3 && j < |keys|
    ensures IfaceRecords(keys[..j + 1], id, s) == IfaceRecords(keys[..j], id, s) + IfaceKeyRecords(keys[j], id, s)
  {
    assert keys[..j + 1][..j] == keys[..j];
  }

  /** What the source needs of a container to report it without a panic:
      a reported container with filesystem stats has every subscribed fs
      counter of its first sample set. Containers skipped for want of a
      sample or of the labels never reach an extractor. */
  predicate Ready(v: Subscriptions, c: ContainerInfo)
  {
    Reported(c) && c.spec.hasFilesystem ==> Extractable(Fs, v.fs, c.stats[0])
  }

  predicate AllReady(v: Subscriptions, cs: seq<ContainerInfo>)
  {
    forall i :: 0 <= i < |cs| ==> Ready(v, cs[i])
  }

  /** The records of one container: nothing without a sample or without
      the Kubernetes labels; otherwise tcp, tcp6 and iface when it has
      network, then mem, cpu and fs, each gated by its capability. Load
      and disk I/O subscriptions are never read. */
  function ContainerRecords(v: Subscriptions, c: ContainerInfo): seq<PluginMetric>
    requires Ready(v, c)
  {
    if |c.stats| < 1 then []
    else
      var check := CheckContainer(c.spec.labels);
      if !check.1 then []
      else
        var id, s := check.0, c.stats[0];
        NonFsExtractable(Tcp, v.tcp, s);
        NonFsExtractable(Tcp6, v.tcp6, s);
        NonFsExtractable(Mem, v.mem, s);
        NonFsExtractable(Cpu, v.cpu, s);
        (if c.spec.hasNetwork
         then ScalarRecords(Tcp, v.tcp, id, s) + ScalarRecords(Tcp6, v.tcp6, id, s) + IfaceRecords(v.iface, id, s)
         else [])
        + (if c.spec.hasMemory then ScalarRecords(Mem, v.mem, id, s) else [])
        + (if c.spec.hasCpu then ScalarRecords(Cpu, v.cpu, id, s) else [])
        + (if c.spec.hasFilesystem then ScalarRecords(Fs, v.fs, id, s) else [])
  }

  /** One pass over the containers, in the order they are given. The
      source ranges over a Go map, so any order may occur. */
  function Batch(v: Subscriptions, cs: seq<ContainerInfo>): seq<PluginMetric>
    requires AllReady(v, cs)
  {
    if cs == [] then []
    else Batch(v, cs[..|cs| - 1]) + ContainerRecords(v, cs[|cs| - 1])
  }

  lemma BatchStep(v: Subscriptions, cs: seq<ContainerInfo>, i: nat)
    requires AllReady(v, cs) && i < |cs|
    ensures AllReady(v, cs[..i]) && AllReady(v, cs[..i + 1]) && Ready(v, cs[i])
    ensures Batch(v, cs[..i + 1]) == Batch(v, cs[..i]) + ContainerRecords(v, cs[i])
  {
    assert cs[..i + 1][..i] == cs[..i];
  }

  // ----- The emission loops -----

  /** The loop over one scalar family's subscribed keys, appending to acc. */
  method EmitScalar(f: Family, keys: seq<string>, id: seq<string>, s: ContainerStats, acc: seq<PluginMetric>)
    returns (out: seq<PluginMetric>)
    requires |id| == 3 && Extractable(f, keys, s)
    ensures out == acc + ScalarRecords(f, keys, id, s)
  {
    out := acc;
    for j := 0 to |keys|
      invariant Extractable(f, keys[..j], s)
      invariant out == acc + ScalarRecords(f, keys[..j], id, s)
    {
      ScalarRecordsStep(f, keys, j, id, s);
      var m := Lookup(ScalarMap(f), keys[j]);
      if m.None? {
        // "metric ... does not exist in the ... metric map": logged
        continue;
      }
      AppendAssoc(acc, ScalarRecords(f, keys[..j], id, s), [ScalarRecord(m.value, id, s)]);
      out := out + [ScalarRecord(m.value, id, s)];
    }
    assert keys[..|keys|] == keys;
  }

  /** The inner loop: one interface entry over every interface. */
  method EmitFanout(m: IfaceMetric, id: seq<string>, ifs: seq<InterfaceStats>, timestamp: int, acc: seq<PluginMetric>)
    returns (out: seq<PluginMetric>)
    requires |id| == 3
    ensures out == acc + IfaceFanout(m, id, ifs, timestamp)
  {
    out := acc;
    for j := 0 to |ifs|
      invariant out == acc + IfaceFanout(m, id, ifs[..j], timestamp)
    {
      IfaceFanoutStep(m, id, ifs, j, timestamp);
      AppendAssoc(acc, IfaceFanout(m, id, ifs[..j], timestamp), [IfaceRecord(m, id, ifs[j], timestamp)]);
      out := out + [IfaceRecord(m, id, ifs[j], timestamp)];
    }
    assert ifs[..|ifs|] == ifs;
  }

  /** The loop over the subscribed interface keys. */
  method EmitIface(keys: seq<string>, id: seq<string>, s: ContainerStats, acc: seq<PluginMetric>)
    returns (out: seq<PluginMetric>)
    requires |id| == 3
    ensures out == acc + IfaceRecords(keys, id, s)
  {
    out := acc;
    for j := 0 to |keys|
      invariant out == acc + IfaceRecords(keys[..j], id, s)
    {
      IfaceRecordsStep(keys, j, id, s);
      AppendAssoc(acc, IfaceRecords(keys[..j], id, s), IfaceKeyRecords(keys[j], id, s));
      out := EmitIfaceKey(keys[j], id, s, out);
    }
    assert keys[..|keys|] == keys;
  }

  /** The body of the loop over interface keys: an unknown key is logged
      and skipped, a known one fans out over the interfaces. */
  method EmitIfaceKey(key: string, id: seq<string>, s: ContainerStats, acc: seq<PluginMetric>)
    returns (out: seq<PluginMetric>)
    requires |id| == 3
    ensures out == acc + IfaceKeyRecords(key, id, s)
  {
    var m := LookupIface(key);
    if m.None? {
      return acc;
    }
    out := EmitFanout(m.value, id, s.network.interfaces, s.timestamp, acc);
  }

  lemma AppendAssoc<T>(a: seq<T>, b: seq<T>, c: seq<T>)
    ensures (a + b) + c == a + (b + c)
  {
  }

  /** The four capability sections of a reported container. */
  function NetworkSection(v: Subscriptions, c: ContainerInfo, id: seq<string>): seq<PluginMetric>
    requires |c.stats| >= 1 && |id| == 3
  {
    var s := c.stats[0];
    NonFsExtractable(Tcp, v.tcp, s);
    NonFsExtractable(Tcp6, v.tcp6, s);
    if c.spec.hasNetwork
    then ScalarRecords(Tcp, v.tcp, id, s) + ScalarRecords(Tcp6, v.tcp6, id, s) + IfaceRecords(v.iface, id, s)
    else []
  }

  function GatedSection(f: Family, enabled: bool, keys: seq<string>, c: ContainerInfo, id: seq<string>): seq<PluginMetric>
    requires |c.stats| >= 1 && |id| == 3
    requires enabled ==> Extractable(f, keys, c.stats[0])
  {
    if enabled then ScalarRecords(f, keys, id, c.stats[0]) else []
  }

  lemma ContainerSections(v: Subscriptions, c: ContainerInfo, id: seq<string>)
    requires Ready(v, c) && |c.stats| >= 1 && CheckContainer(c.spec.labels) == (id, true)
    ensures Extractable(Mem, v.mem, c.stats[0]) && Extractable(Cpu, v.cpu, c.stats[0])
    ensures ContainerRecords(v, c) ==
      NetworkSection(v, c, id)
        + GatedSection(Mem, c.spec.hasMemory, v.mem, c, id)
        + GatedSection(Cpu, c.spec.hasCpu, v.cpu, c, id)
        + GatedSection(Fs, c.spec.hasFilesystem, v.fs, c, id)
  {
    NonFsExtractable(Mem, v.mem, c.stats[0]);
    NonFsExtractable(Cpu, v.cpu, c.stats[0]);
  }

  /** The body of the loop over containers, for a container with a sample
      and the identity id: each capability's families in turn. */
  method EmitContainer(v: Subscriptions, cont: ContainerInfo, id: seq<string>, acc: seq<PluginMetric>)
    returns (out: seq<PluginMetric>)
    requires Ready(v, cont) && |cont.stats| >= 1
    requires CheckContainer(cont.spec.labels) == (id, true)
    ensures out == acc + ContainerRecords(v, cont)
  {
    var s := cont.stats[0];
    ContainerSections(v, cont, id);
    NonFsExtractable(Tcp, v.tcp, s);
    NonFsExtractable(Tcp6, v.tcp6, s);
    ghost var network := NetworkSection(v, cont, id);
    ghost var memory := GatedSection(Mem, cont.spec.hasMemory, v.mem, cont, id);
    ghost var cpu := GatedSection(Cpu, cont.spec.hasCpu, v.cpu, cont, id);
    ghost var fs := GatedSection(Fs, cont.spec.hasFilesystem, v.fs, cont, id);
    out := acc;
    if cont.spec.hasNetwork {
      out := EmitScalar(Tcp, v.tcp, id, s, out);
      out := EmitScalar(Tcp6, v.tcp6, id, s, out);
      AppendAssoc(acc, ScalarRecords(Tcp, v.tcp, id, s), ScalarRecords(Tcp6, v.tcp6, id, s));
      out := EmitIface(v.iface, id, s, out);
      AppendAssoc(acc, ScalarRecords(Tcp, v.tcp, id, s) + ScalarRecords(Tcp6, v.tcp6, id, s), IfaceRecords(v.iface, id, s));
    }
    assert out == acc + network;
    if cont.spec.hasMemory {
      out := EmitScalar(Mem, v.mem, id, s, out);
    }
    AppendAssoc(acc, network, memory);
    assert out == acc + (network + memory);
    if cont.spec.hasCpu {
      out := EmitScalar(Cpu, v.cpu, id, s, out);
    }
    AppendAssoc(acc, network + memory, cpu);
    assert out == acc + (network + memory + cpu);
    if cont.spec.hasFilesystem {
      out := EmitScalar(Fs, v.fs, id, s, out);
    }
    AppendAssoc(acc, network + memory + cpu, fs);
    assert out == acc + (network + memory + cpu + fs);
  }

  // ----- Discovery -----

  /** The catalog record of a scalar entry: wildcard namespace,
      description, unit and the configuration handed in; no value. */
  function Advertisement(m: Metric, cfg: Config): PluginMetric
  {
    PluginMetric(m.Namespace("*", "*", "*"), m.Description(), m.Unit(), None, None, cfg)
  }

  function IfaceAdvertisement(m: IfaceMetric, cfg: Config): PluginMetric
  {
    PluginMetric(m.Namespace("*", "*", "*", "*"), m.Description(), m.Unit(), None, None, cfg)
  }

  function Advertised(table: seq<Metric>, cfg: Config): seq<PluginMetric>
  {
    if table == [] then []
    else Advertised(table[..|table| - 1], cfg) + [Advertisement(table[|table| - 1], cfg)]
  }

  function IfaceAdvertised(table: seq<IfaceMetric>, cfg: Config): seq<PluginMetric>
  {
    if table == [] then []
    else IfaceAdvertised(table[..|table| - 1], cfg) + [IfaceAdvertisement(table[|table| - 1], cfg)]
  }

  /** What GetMetricTypes returns: tcp, tcp6, fs, cpu, mem, then iface.
      Neither the load nor the disk I/O map is advertised. */
  function Catalog(cfg: Config): seq<PluginMetric>
  {
    Advertised(TcpMap, cfg) + Advertised(Tcp6Map, cfg) + Advertised(FsMap, cfg)
      + Advertised(CpuMap, cfg) + Advertised(MemMap, cfg) + IfaceAdvertised(IfaceMap, cfg)
  }

  method AdvertiseScalar(table: seq<Metric>, cfg: Config, acc: seq<PluginMetric>) returns (out: seq<PluginMetric>)
    ensures out == acc + Advertised(table, cfg)
  {
    out := acc;
    for j := 0 to |table|
      invariant out == acc + Advertised(table[..j], cfg)
    {
      assert table[..j + 1][..j] == table[..j];
      out := out + [Advertisement(table[j], cfg)];
    }
    assert table[..|table|] == table;
  }

  method AdvertiseIface(cfg: Config, acc: seq<PluginMetric>) returns (out: seq<PluginMetric>)
    ensures out == acc + IfaceAdvertised(IfaceMap, cfg)
  {
    out := acc;
    for j := 0 to |IfaceMap|
      invariant out == acc + IfaceAdvertised(IfaceMap[..j], cfg)
    {
      assert IfaceMap[..j + 1][..j] == IfaceMap[..j];
      out := out + [IfaceAdvertisement(IfaceMap[j], cfg)];
    }
    assert IfaceMap[..|IfaceMap|] == IfaceMap;
  }

  // ----- The collector -----

  class Collector {
    const manifest: Manifest
    var interval: Duration

    /** NewCollector: an empty manifest and a 15 second interval. */
    constructor ()
      ensures fresh(manifest)
      ensures manifest.View() == NoSubscriptions
      ensures interval == 15 * Second
    {
      manifest := new Manifest();
      interval := Mul(Second, 15);
    }

    /** One turn of buildOrganizer: a new request list rebuilds the
        manifest and sets the interval. */
    method Update(newMetrics: seq<PluginMetric>)
      requires |newMetrics| > 0 && AllRoutable(newMetrics)
      modifies this, manifest
      ensures manifest.View() == Rebuilt(newMetrics)
      ensures interval == ResolveInterval(newMetrics[0].config)
    {
      interval := manifest.BuildMetricsList(newMetrics);
    }

    /** One pass of StreamMetrics' loop over the containers the manager
        returned, which may be an empty or partial map after an error. */
    method Collect(containers: seq<ContainerInfo>) returns (metrics: seq<PluginMetric>)
      requires AllReady(manifest.View(), containers)
      ensures metrics == Batch(manifest.View(), containers)
    {
      var v := manifest.View();
      metrics := [];
      for i := 0 to |containers|
        invariant AllReady(v, containers[..i])
        invariant metrics == Batch(v, containers[..i])
      {
        BatchStep(v, containers, i);
        var cont := containers[i];
        if |cont.stats| < 1 {
          // "no container stats currently available": logged
          continue;
        }
        var check := CheckContainer(cont.spec.labels);
        var contInfo, ok := check.0, check.1;
        if !ok {
          continue;
        }
        metrics := EmitContainer(v, cont, contInfo, metrics);
      }
      assert containers[..|containers|] == containers;
    }

    /** GetMetricTypes: the catalog, built map by map; it never fails. */
    method GetMetricTypes(cfg: Config) returns (metrics: seq<PluginMetric>)
      ensures metrics == Catalog(cfg)
    {
      ghost var tcp, tcp6, fs := Advertised(TcpMap, cfg), Advertised(Tcp6Map, cfg), Advertised(FsMap, cfg);
      ghost var cpu, mem, iface := Advertised(CpuMap, cfg), Advertised(MemMap, cfg), IfaceAdvertised(IfaceMap, cfg);
      metrics := [];
      metrics := AdvertiseScalar(TcpMap, cfg, metrics);
      assert metrics == tcp;
      metrics := AdvertiseScalar(Tcp6Map, cfg, metrics);
      metrics := AdvertiseScalar(FsMap, cfg, metrics);
      AppendAssoc(tcp, tcp6, fs);
      metrics := AdvertiseScalar(CpuMap, cfg, metrics);
      metrics := AdvertiseScalar(MemMap, cfg, metrics);
      AppendAssoc(tcp + tcp6 + fs, cpu, mem);
      metrics := AdvertiseIface(cfg, metrics);
      assert metrics == tcp + tcp6 + fs + cpu + mem + iface;
    }
  }

  // ----- Properties of a collection pass -----

  /** A pass over two lists of containers emits the records of the first
      followed by those of the second: containers are independent. */
  lemma {:induction false} BatchAppend(v: Subscriptions, a: seq<ContainerInfo>, b: seq<ContainerInfo>)
    requires AllReady(v, a) && AllReady(v, b)
    ensures AllReady(v, a + b)
    ensures Batch(v, a + b) == Batch(v, a) + Batch(v, b)
    decreases |b|
  {
    assert AllReady(v, a + b) by {
      forall i | 0 <= i < |a + b| ensures Ready(v, (a + b)[i]) {
        if i >= |a| { assert (a + b)[i] == b[i - |a|]; }
      }
    }
    if b == [] {
      assert a + b == a;
    } else {
      var b' := b[..|b| - 1];
      assert (a + b)[..|a + b| - 1] == a + b';
      assert (a + b)[|a + b| - 1] == b[|b| - 1];
      BatchAppend(v, a, b');
      AppendAssoc(Batch(v, a), Batch(v, b'), ContainerRecords(v, b[|b| - 1]));
    }
  }

  /** Whether a container is reported at all: it has a sample and the
      three Kubernetes labels. */
  predicate Reported(c: ContainerInfo)
  {
    |c.stats| >= 1 && CheckContainer(c.spec.labels).1
  }

  /** The containers the pass visits: the reported ones, in input order. */
  function ReportedOnly(cs: seq<ContainerInfo>): (r: seq<ContainerInfo>)
    ensures forall c :: c in r ==> c in cs && Reported(c)
    ensures forall c :: c in cs && Reported(c) ==> c in r
    ensures |r| <= |cs|
  {
    if cs == [] then []
    else ReportedOnly(cs[..|cs| - 1]) + (if Reported(cs[|cs| - 1]) then [cs[|cs| - 1]] else [])
  }

  /** The filter keeps input order: filtering a concatenation filters each
      part and concatenates the results. */
  lemma {:induction false} ReportedOnlyAppend(a: seq<ContainerInfo>, b: seq<ContainerInfo>)
    ensures ReportedOnly(a + b) == ReportedOnly(a) + ReportedOnly(b)
  {
    if b == [] {
      assert a + b == a;
    } else {
      var b', last := b[..|b| - 1], b[|b| - 1];
      assert (a + b)[..|a + b| - 1] == a + b';
      assert (a + b)[|a + b| - 1] == last;
      ReportedOnlyAppend(a, b');
      var tail := if Reported(last) then [last] else [];
      assert ReportedOnly(a + b) == ReportedOnly(a + b') + tail;
      assert ReportedOnly(b) == ReportedOnly(b') + tail;
      AppendAssoc(ReportedOnly(a), ReportedOnly(b'), tail);
    }
  }

  /** Containers without a sample or without the labels contribute
      nothing: the pass equals the pass over the reported ones alone. */
  lemma {:induction false} UnreportedContributeNothing(v: Subscriptions, cs: seq<ContainerInfo>)
    requires AllReady(v, cs)
    ensures AllReady(v, ReportedOnly(cs))
    ensures Batch(v, cs) == Batch(v, ReportedOnly(cs))
  {
    assert AllReady(v, ReportedOnly(cs)) by {
      forall i | 0 <= i < |ReportedOnly(cs)| ensures Ready(v, ReportedOnly(cs)[i]) {
        assert ReportedOnly(cs)[i] in ReportedOnly(cs);
        var k :| 0 <= k < |cs| && cs[k] == ReportedOnly(cs)[i];
      }
    }
    if cs != [] {
      var init, last := cs[..|cs| - 1], cs[|cs| - 1];
      assert AllReady(v, init);
      UnreportedContributeNothing(v, init);
      if Reported(last) {
        assert ReportedOnly(cs) == ReportedOnly(init) + [last];
        assert ReportedOnly(cs)[..|ReportedOnly(cs)| - 1] == ReportedOnly(init);
      } else {
        assert ContainerRecords(v, last) == [];
        assert ReportedOnly(cs) == ReportedOnly(init);
      }
    }
  }

  /** With nothing subscribed, nothing is emitted. */
  lemma {:induction false} NothingSubscribedNothingEmitted(cs: seq<ContainerInfo>)
    ensures AllReady(NoSubscriptions, cs)
    ensures Batch(NoSubscriptions, cs) == []
  {
    if cs != [] {
      NothingSubscribedNothingEmitted(cs[..|cs| - 1]);
      var c := cs[|cs| - 1];
      if Reported(c) {
        ContainerSections(NoSubscriptions, c, CheckContainer(c.spec.labels).0);
      }
    }
  }

  /** When every subscribed key is in the family's map, each key yields
      exactly one record. */
  lemma {:induction false} ScalarRecordsCount(f: Family, keys: seq<string>, id: seq<string>, s: ContainerStats)
    requires |id| == 3 && Extractable(f, keys, s)
    requires forall k :: k in keys ==> Lookup(ScalarMap(f), k).Some?
    ensures |ScalarRecords(f, keys, id, s)| == |keys|
  {
    if keys != [] {
      ExtractablePrefix(f, keys, |keys| - 1, s);
      assert forall k :: k in keys[..|keys| - 1] ==> k in keys;
      ScalarRecordsCount(f, keys[..|keys| - 1], id, s);
      assert keys[|keys| - 1] in keys;
    }
  }

  lemma {:induction false} IfaceFanoutLength(m: IfaceMetric, id: seq<string>, ifs: seq<InterfaceStats>, timestamp: int)
    requires |id| == 3
    ensures |IfaceFanout(m, id, ifs, timestamp)| == |ifs|
  {
    if ifs != [] {
      IfaceFanoutLength(m, id, ifs[..|ifs| - 1], timestamp);
    }
  }

  lemma MulSucc(a: nat, n: nat)
    ensures a * n + n == (a + 1) * n
  {
  }

  /** When every subscribed interface key is known, each key yields one
      record per interface of the sample. */
  lemma {:induction false} IfaceRecordsCount(keys: seq<string>, id: seq<string>, s: ContainerStats)
    requires |id| == 3
    requires forall k :: k in keys ==> LookupIface(k).Some?
    ensures |IfaceRecords(keys, id, s)| == |keys| * |s.network.interfaces|
  {
    if keys != [] {
      var j := |keys| - 1;
      var init, k := keys[..j], keys[j];
      var n := |s.network.interfaces|;
      assert forall x :: x in init ==> x in keys;
      IfaceRecordsCount(init, id, s);
      assert k in keys;
      var m := LookupIface(k).value;
      IfaceFanoutLength(m, id, s.network.interfaces, s.timestamp);
      IfaceRecordsStep(keys, j, id, s);
      assert keys[..j + 1] == keys;
      MulSucc(|init|, n);
    }
  }

  lemma LookupInFamily(f: Family, m: Metric)
    requires m in ScalarMap(f)
    ensures Lookup(ScalarMap(f), m.Key()) == Some(m)
  {
    ScalarMapFamily(f, m);
    LookupFindsEntry(m);
  }

  /** The last key, when the map knows it, contributes its entry's record. */
  lemma ScalarRecordsFound(f: Family, keys: seq<string>, id: seq<string>, s: ContainerStats, m: Metric)
    requires |id| == 3 && Extractable(f, keys, s) && keys != []
    requires Lookup(ScalarMap(f), keys[|keys| - 1]) == Some(m)
    ensures m.CanExtract(s) && Extractable(f, keys[..|keys| - 1], s)
    ensures ScalarRecords(f, keys, id, s) == ScalarRecords(f, keys[..|keys| - 1], id, s) + [ScalarRecord(m, id, s)]
  {
    ExtractablePrefix(f, keys, |keys| - 1, s);
    assert keys[|keys| - 1] in keys;
  }

  /** Every record of a scalar family comes from a map entry whose key is
      subscribed. */
  lemma {:induction false} ScalarRecordOrigin(f: Family, keys: seq<string>, id: seq<string>, s: ContainerStats, r: PluginMetric)
    requires |id| == 3 && Extractable(f, keys, s)
    requires r in ScalarRecords(f, keys, id, s)
    ensures exists m :: m in ScalarMap(f) && m.Key() in keys && r == ScalarRecord(m, id, s)
  {
    var j := |keys| - 1;
    var init := keys[..j];
    ScalarRecordsStep(f, keys, j, id, s);
    assert keys[..j + 1] == keys;
    if r in ScalarRecords(f, init, id, s) {
      ScalarRecordOrigin(f, init, id, s, r);
      var m :| m in ScalarMap(f) && m.Key() in init && r == ScalarRecord(m, id, s);
      assert m.Key() in keys;
    } else {
      var m := Lookup(ScalarMap(f), keys[j]).value;
      assert m in ScalarMap(f) && m.Key() in keys && r == ScalarRecord(m, id, s);
    }
  }

  /** Every map entry whose key is subscribed gets its record. */
  lemma {:induction false} ScalarRecordEmitted(f: Family, keys: seq<string>, id: seq<string>, s: ContainerStats, m: Metric)
    requires |id| == 3 && Extractable(f, keys, s)
    requires m in ScalarMap(f) && m.Key() in keys
    ensures m.CanExtract(s) && ScalarRecord(m, id, s) in ScalarRecords(f, keys, id, s)
  {
    var j := |keys| - 1;
    var init := keys[..j];
    ExtractablePrefix(f, keys, j, s);
    var i :| 0 <= i < |keys| && keys[i] == m.Key();
    if i < j {
      assert init[i] == m.Key();
      ScalarRecordEmitted(f, init, id, s, m);
      assert ScalarRecords(f, init, id, s) <= ScalarRecords(f, keys, id, s);
    } else {
      assert keys[j] == m.Key();
      LookupInFamily(f, m);
      assert Lookup(ScalarMap(f), keys[j]) == Some(m);
      ScalarRecordsFound(f, keys, id, s, m);
    }
  }

  /** A scalar record is emitted exactly for the map entries whose key is
      subscribed. */
  lemma ScalarRecordsMembership(f: Family, keys: seq<string>, id: seq<string>, s: ContainerStats, r: PluginMetric)
    requires |id| == 3 && Extractable(f, keys, s)
    ensures r in ScalarRecords(f, keys, id, s) <==>
      exists m :: m in ScalarMap(f) && m.Key() in keys && r == ScalarRecord(m, id, s)
  {
    if r in ScalarRecords(f, keys, id, s) {
      ScalarRecordOrigin(f, keys, id, s, r);
    }
    if exists m :: m in ScalarMap(f) && m.Key() in keys && r == ScalarRecord(m, id, s) {
      var m :| m in ScalarMap(f) && m.Key() in keys && r == ScalarRecord(m, id, s);
      ScalarRecordEmitted(f, keys, id, s, m);
    }
  }

  lemma {:induction false} IfaceFanoutOrigin(m: IfaceMetric, id: seq<string>, ifs: seq<InterfaceStats>, timestamp: int, r: PluginMetric)
    requires |id| == 3 && r in IfaceFanout(m, id, ifs, timestamp)
    ensures exists x :: x in ifs && r == IfaceRecord(m, id, x, timestamp)
  {
    var init := ifs[..|ifs| - 1];
    if r in IfaceFanout(m, id, init, timestamp) {
      IfaceFanoutOrigin(m, id, init, timestamp, r);
      var x :| x in init && r == IfaceRecord(m, id, x, timestamp);
      assert x in ifs;
    } else {
      assert r == IfaceRecord(m, id, ifs[|ifs| - 1], timestamp);
    }
  }

  /** Every interface record comes from a subscribed interface key and an
      interface of the sample. */
  lemma {:induction false} IfaceRecordOrigin(keys: seq<string>, id: seq<string>, s: ContainerStats, r: PluginMetric)
    requires |id| == 3 && r in IfaceRecords(keys, id, s)
    ensures exists m: IfaceMetric, x :: m.Key() in keys && x in s.network.interfaces
                                         && r == IfaceRecord(m, id, x, s.timestamp)
  {
    var j := |keys| - 1;
    var init := keys[..j];
    IfaceRecordsStep(keys, j, id, s);
    assert keys[..j + 1] == keys;
    if r in IfaceRecords(init, id, s) {
      IfaceRecordOrigin(init, id, s, r);
      var m: IfaceMetric, x :| m.Key() in init && x in s.network.interfaces
                               && r == IfaceRecord(m, id, x, s.timestamp);
      assert m.Key() in keys;
    } else {
      var m := LookupIface(keys[j]).value;
      IfaceFanoutOrigin(m, id, s.network.interfaces, s.timestamp, r);
    }
  }

  /** The capability that gates a family's records; the load and disk I/O
      lists are never read. */
  predicate Enabled(spec: ContainerSpec, f: Family)
  {
    match f
    case Tcp => spec.hasNetwork
    case Tcp6 => spec.hasNetwork
    case Iface => spec.hasNetwork
    case Mem => spec.hasMemory
    case Cpu => spec.hasCpu
    case Fs => spec.hasFilesystem
    case Load => false
    case DiskIo => false
  }

  /** What holds of every record r emitted for container c: it carries the
      container's Kubernetes identity and its first sample's timestamp and
      a value, its family is one the container's capabilities enable, its
      key is subscribed for that family, and it is the record of an entry
      of that family's map read from the first sample, or of an interface
      entry read from one of that sample's interfaces. */
  predicate Describes(v: Subscriptions, c: ContainerInfo, r: PluginMetric)
  {
    && Reported(c)
    && var labels := c.spec.labels;
    && var id, s := CheckContainer(labels).0, c.stats[0];
    && r.timestamp == Some(c.stats[0].timestamp)
    && r.data.Some?
    && |r.namespace| > 6
    && r.namespace[..6] == ContainerNamespace(labels[PodNamespaceLabel], labels[PodNameLabel], labels[ContainerNameLabel])
    && FamilyNamed(r.namespace[6]).Some?
    && var f := FamilyNamed(r.namespace[6]).value;
    && Enabled(c.spec, f)
    && |r.namespace| > KeyIndex(f)
    && r.namespace[KeyIndex(f)] in v.List(f)
    && ((exists m :: m in ScalarMap(f) && m.CanExtract(s) && r == ScalarRecord(m, id, s))
        || (f == Iface && exists m: IfaceMetric, x :: x in s.network.interfaces && r == IfaceRecord(m, id, x, s.timestamp)))
  }

  lemma ScalarRecordDescribes(v: Subscriptions, c: ContainerInfo, f: Family, m: Metric)
    requires Reported(c) && Enabled(c.spec, f)
    requires m in ScalarMap(f) && m.Key() in v.List(f) && m.CanExtract(c.stats[0])
    ensures Describes(v, c, ScalarRecord(m, CheckContainer(c.spec.labels).0, c.stats[0]))
  {
    var id := CheckContainer(c.spec.labels).0;
    ScalarMapFamily(f, m);
    FamilyNamedName(f);
    ScalarNamespaceLayout(m, id[0], id[1], id[2]);
  }

  lemma IfaceRecordDescribes(v: Subscriptions, c: ContainerInfo, m: IfaceMetric, x: InterfaceStats)
    requires Reported(c) && c.spec.hasNetwork && m.Key() in v.iface
    requires x in c.stats[0].network.interfaces
    ensures Describes(v, c, IfaceRecord(m, CheckContainer(c.spec.labels).0, x, c.stats[0].timestamp))
  {
    var id := CheckContainer(c.spec.labels).0;
    FamilyNamedName(Iface);
    DeviceNamespaceLayout(Iface, m.Key(), id[0], id[1], id[2], x.name);
  }

  lemma ScalarSectionDescribes(v: Subscriptions, c: ContainerInfo, f: Family, r: PluginMetric)
    requires Reported(c) && Enabled(c.spec, f)
    requires Extractable(f, v.List(f), c.stats[0])
    requires r in ScalarRecords(f, v.List(f), CheckContainer(c.spec.labels).0, c.stats[0])
    ensures Describes(v, c, r)
  {
    var id, s := CheckContainer(c.spec.labels).0, c.stats[0];
    ScalarRecordOrigin(f, v.List(f), id, s, r);
    var m :| m in ScalarMap(f) && m.Key() in v.List(f) && r == ScalarRecord(m, id, s);
    ScalarRecordDescribes(v, c, f, m);
  }

  /** Every record of a container's pass describes that container. */
  lemma ContainerRecordDescribes(v: Subscriptions, c: ContainerInfo, r: PluginMetric)
    requires Ready(v, c) && r in ContainerRecords(v, c)
    ensures Describes(v, c, r)
  {
    var id, s := CheckContainer(c.spec.labels).0, c.stats[0];
    ContainerSections(v, c, id);
    NonFsExtractable(Tcp, v.tcp, s);
    NonFsExtractable(Tcp6, v.tcp6, s);
    if r in NetworkSection(v, c, id) {
      if r in ScalarRecords(Tcp, v.tcp, id, s) {
        ScalarSectionDescribes(v, c, Tcp, r);
      } else if r in ScalarRecords(Tcp6, v.tcp6, id, s) {
        ScalarSectionDescribes(v, c, Tcp6, r);
      } else {
        IfaceRecordOrigin(v.iface, id, s, r);
        var m: IfaceMetric, x :| m.Key() in v.iface && x in s.network.interfaces
                                 && r == IfaceRecord(m, id, x, s.timestamp);
        IfaceRecordDescribes(v, c, m, x);
      }
    } else if r in GatedSection(Mem, c.spec.hasMemory, v.mem, c, id) {
      ScalarSectionDescribes(v, c, Mem, r);
    } else if r in GatedSection(Cpu, c.spec.hasCpu, v.cpu, c, id) {
      ScalarSectionDescribes(v, c, Cpu, r);
    } else {
      ScalarSectionDescribes(v, c, Fs, r);
    }
  }

  /** Every emitted record describes one of the containers of the pass. */
  lemma {:induction false} EmittedRecordsDescribeContainers(v: Subscriptions, cs: seq<ContainerInfo>, r: PluginMetric)
    requires AllReady(v, cs) && r in Batch(v, cs)
    ensures exists i :: 0 <= i < |cs| && Describes(v, cs[i], r)
  {
    var init, last := cs[..|cs| - 1], cs[|cs| - 1];
    if r in Batch(v, init) {
      EmittedRecordsDescribeContainers(v, init, r);
      var i :| 0 <= i < |init| && Describes(v, init[i], r);
      assert cs[i] == init[i];
    } else {
      ContainerRecordDescribes(v, last, r);
    }
  }

  /** Conversely, every reported container gets a record for every
      subscribed catalog entry of a family its capabilities enable. */
  lemma SubscribedEntryIsEmitted(v: Subscriptions, c: ContainerInfo, m: Metric)
    requires Ready(v, c) && Reported(c)
    requires Enabled(c.spec, m.Family()) && m.Key() in v.List(m.Family())
    ensures m.CanExtract(c.stats[0])
    ensures ScalarRecord(m, CheckContainer(c.spec.labels).0, c.stats[0]) in ContainerRecords(v, c)
  {
    var f, id, s := m.Family(), CheckContainer(c.spec.labels).0, c.stats[0];
    ContainerSections(v, c, id);
    NonFsExtractable(Tcp, v.tcp, s);
    NonFsExtractable(Tcp6, v.tcp6, s);
    ScalarMapComplete(m);
    ScalarRecordEmitted(f, v.List(f), id, s, m);
  }

  /** An interface entry's fan-out holds its record for every interface. */
  lemma {:induction false} IfaceFanoutContains(m: IfaceMetric, id: seq<string>, ifs: seq<InterfaceStats>, timestamp: int, x: InterfaceStats)
    requires |id| == 3 && x in ifs
    ensures IfaceRecord(m, id, x, timestamp) in IfaceFanout(m, id, ifs, timestamp)
  {
    var init := ifs[..|ifs| - 1];
    if x != ifs[|ifs| - 1] {
      assert x in init by {
        var k :| 0 <= k < |ifs| && ifs[k] == x;
        assert init[k] == x;
      }
      IfaceFanoutContains(m, id, init, timestamp, x);
    }
  }

  /** Every subscribed interface entry yields its record for every
      interface of the sample. */
  lemma {:induction false} IfaceRecordEmitted(keys: seq<string>, id: seq<string>, s: ContainerStats, m: IfaceMetric, x: InterfaceStats)
    requires |id| == 3 && m.Key() in keys && x in s.network.interfaces
    ensures IfaceRecord(m, id, x, s.timestamp) in IfaceRecords(keys, id, s)
  {
    var init, last := keys[..|keys| - 1], keys[|keys| - 1];
    if last == m.Key() {
      LookupIfaceFindsEntry(m);
      IfaceFanoutContains(m, id, s.network.interfaces, s.timestamp, x);
      assert IfaceKeyRecords(last, id, s) == IfaceFanout(m, id, s.network.interfaces, s.timestamp);
    } else {
      assert m.Key() in init by {
        var k :| 0 <= k < |keys| && keys[k] == m.Key();
        assert init[k] == m.Key();
      }
      IfaceRecordEmitted(init, id, s, m, x);
    }
  }

  /** Every reported container with network gets, for every subscribed
      interface entry, one record per interface of its first sample. */
  lemma SubscribedIfaceEntryIsEmitted(v: Subscriptions, c: ContainerInfo, m: IfaceMetric, x: InterfaceStats)
    requires Ready(v, c) && Reported(c) && c.spec.hasNetwork
    requires m.Key() in v.iface && x in c.stats[0].network.interfaces
    ensures IfaceRecord(m, CheckContainer(c.spec.labels).0, x, c.stats[0].timestamp) in ContainerRecords(v, c)
  {
    var id, s := CheckContainer(c.spec.labels).0, c.stats[0];
    ContainerSections(v, c, id);
    NonFsExtractable(Tcp, v.tcp, s);
    NonFsExtractable(Tcp6, v.tcp6, s);
    IfaceRecordEmitted(v.iface, id, s, m, x);
  }

  // ----- Properties of discovery -----

  /** The keys of a map, in source order. */
  function Keys(table: seq<Metric>): seq<string>
  {
    if table == [] then [] else Keys(table[..|table| - 1]) + [table[|table| - 1].Key()]
  }

  function IfaceKeys(table: seq<IfaceMetric>): seq<string>
  {
    if table == [] then [] else IfaceKeys(table[..|table| - 1]) + [table[|table| - 1].Key()]
  }

  lemma {:induction false} AdvertisedLength(table: seq<Metric>, cfg: Config)
    ensures |Advertised(table, cfg)| == |table|
  {
    if table != [] {
      AdvertisedLength(table[..|table| - 1], cfg);
    }
  }

  lemma {:induction false} IfaceAdvertisedLength(table: seq<IfaceMetric>, cfg: Config)
    ensures |IfaceAdvertised(table, cfg)| == |table|
  {
    if table != [] {
      IfaceAdvertisedLength(table[..|table| - 1], cfg);
    }
  }

  /** The catalog has 11 + 11 + 3 + 4 + 6 + 8 = 43 entries. */
  lemma CatalogSize(cfg: Config)
    ensures |Catalog(cfg)| == 43
  {
    AdvertisedLength(TcpMap, cfg);
    AdvertisedLength(Tcp6Map, cfg);
    AdvertisedLength(FsMap, cfg);
    AdvertisedLength(CpuMap, cfg);
    AdvertisedLength(MemMap, cfg);
    IfaceAdvertisedLength(IfaceMap, cfg);
  }

  /** A catalog record is a template: wildcard identity, no value, no
      timestamp, and the configuration handed in. */
  predicate Template(r: PluginMetric, cfg: Config)
  {
    && |r.namespace| > 6
    && r.namespace[..6] == ContainerNamespace("*", "*", "*")
    && (FamilyNamed(r.namespace[6]) == Some(Iface) ==> |r.namespace| > 7 && r.namespace[7] == "*")
    && r.data.None? && r.timestamp.None?
    && r.config == cfg
  }

  lemma {:induction false} AdvertisedTemplates(table: seq<Metric>, cfg: Config)
    ensures forall r :: r in Advertised(table, cfg) ==> Template(r, cfg)
  {
    if table != [] {
      AdvertisedTemplates(table[..|table| - 1], cfg);
      ScalarNamespaceLayout(table[|table| - 1], "*", "*", "*");
      FamilyNamedName(table[|table| - 1].Family());
    }
  }

  lemma {:induction false} IfaceAdvertisedTemplates(table: seq<IfaceMetric>, cfg: Config)
    ensures forall r :: r in IfaceAdvertised(table, cfg) ==> Template(r, cfg)
  {
    if table != [] {
      IfaceAdvertisedTemplates(table[..|table| - 1], cfg);
      var m := table[|table| - 1];
      DeviceNamespaceLayout(Iface, m.Key(), "*", "*", "*", "*");
      FamilyNamedName(Iface);
    }
  }

  lemma CatalogTemplates(cfg: Config)
    ensures forall r :: r in Catalog(cfg) ==> Template(r, cfg)
  {
    AdvertisedTemplates(TcpMap, cfg);
    AdvertisedTemplates(Tcp6Map, cfg);
    AdvertisedTemplates(FsMap, cfg);
    AdvertisedTemplates(CpuMap, cfg);
    AdvertisedTemplates(MemMap, cfg);
    IfaceAdvertisedTemplates(IfaceMap, cfg);
  }

  /** Subscribing to one family's advertised entries yields that map's
      keys in that family's list, in order, and nothing elsewhere. */
  lemma {:induction false} AdvertisedRequested(table: seq<Metric>, g: Family, cfg: Config, f: Family)
    requires forall m :: m in table ==> m.Family() == g
    ensures AllRoutable(Advertised(table, cfg))
    ensures Requested(Advertised(table, cfg), f) == if f == g then Keys(table) else []
  {
    if table != [] {
      var init, m := table[..|table| - 1], table[|table| - 1];
      assert forall x :: x in init ==> x in table;
      AdvertisedRequested(init, g, cfg, f);
      var r := Advertisement(m, cfg);
      ScalarNamespaceLayout(m, "*", "*", "*");
      FamilyNamedName(g);
      RequestedOfTemplate(r, g, m.Key(), f);
      RequestedAppend(Advertised(init, cfg), [r], f);
    }
  }

  /** A single request for key k of the non-device family g. */
  lemma RequestedOfTemplate(r: PluginMetric, g: Family, k: string, f: Family)
    requires |r.namespace| > 7 && !g.PerDevice()
    requires FamilyNamed(r.namespace[6]) == Some(g) && r.namespace[7] == k
    ensures AllRoutable([r])
    ensures Requested([r], f) == if f == g then [k] else []
  {
    RequestedSingle(r, f);
  }

  lemma {:induction false} IfaceAdvertisedRequested(table: seq<IfaceMetric>, cfg: Config, f: Family)
    ensures AllRoutable(IfaceAdvertised(table, cfg))
    ensures Requested(IfaceAdvertised(table, cfg), f) == if f == Iface then IfaceKeys(table) else []
  {
    if table != [] {
      var init, m := table[..|table| - 1], table[|table| - 1];
      IfaceAdvertisedRequested(init, cfg, f);
      var r := IfaceAdvertisement(m, cfg);
      DeviceNamespaceLayout(Iface, m.Key(), "*", "*", "*", "*");
      FamilyNamedName(Iface);
      RequestedSingle(r, f);
      RequestedAppend(IfaceAdvertised(init, cfg), [r], f);
    }
  }

  /** Subscribing to six request lists in a row. */
  lemma RequestedSix(a1: seq<PluginMetric>, a2: seq<PluginMetric>, a3: seq<PluginMetric>,
                     a4: seq<PluginMetric>, a5: seq<PluginMetric>, a6: seq<PluginMetric>, f: Family)
    requires AllRoutable(a1) && AllRoutable(a2) && AllRoutable(a3)
    requires AllRoutable(a4) && AllRoutable(a5) && AllRoutable(a6)
    ensures AllRoutable(a1 + a2 + a3 + a4 + a5 + a6)
    ensures Requested(a1 + a2 + a3 + a4 + a5 + a6, f)
      == Requested(a1, f) + Requested(a2, f) + Requested(a3, f) + Requested(a4, f) + Requested(a5, f) + Requested(a6, f)
  {
    RequestedAppend(a1, a2, f);
    RequestedAppend(a1 + a2, a3, f);
    RequestedAppend(a1 + a2 + a3, a4, f);
    RequestedAppend(a1 + a2 + a3 + a4, a5, f);
    RequestedAppend(a1 + a2 + a3 + a4 + a5, a6, f);
  }

  /** Six lists of which at most the k-th is non-empty. */
  lemma OnlyOneNonEmpty(r1: seq<string>, r2: seq<string>, r3: seq<string>,
                        r4: seq<string>, r5: seq<string>, r6: seq<string>, k: nat, t: seq<string>)
    requires k <= 6 && (k == 0 ==> t == [])
    requires r1 == (if k == 1 then t else []) && r2 == (if k == 2 then t else [])
    requires r3 == (if k == 3 then t else []) && r4 == (if k == 4 then t else [])
    requires r5 == (if k == 5 then t else []) && r6 == (if k == 6 then t else [])
    ensures r1 + r2 + r3 + r4 + r5 + r6 == t
  {
  }

  /** Subscribing to the advertisements of five scalar maps and an
      interface map, laid out as the catalog lays them out, as seen from
      family f: each family's list holds its own map's keys. */
  lemma AdvertisedCatalogRequested(tcp: seq<Metric>, tcp6: seq<Metric>, fs: seq<Metric>,
                                   cpu: seq<Metric>, mem: seq<Metric>, iface: seq<IfaceMetric>,
                                   cfg: Config, f: Family)
    requires forall m :: m in tcp ==> m.Family() == Tcp
    requires forall m :: m in tcp6 ==> m.Family() == Tcp6
    requires forall m :: m in fs ==> m.Family() == Fs
    requires forall m :: m in cpu ==> m.Family() == Cpu
    requires forall m :: m in mem ==> m.Family() == Mem
    ensures var all := Advertised(tcp, cfg) + Advertised(tcp6, cfg) + Advertised(fs, cfg)
                       + Advertised(cpu, cfg) + Advertised(mem, cfg) + IfaceAdvertised(iface, cfg);
      && AllRoutable(all)
      && Requested(all, f) == match f
           case Tcp => Keys(tcp)
           case Tcp6 => Keys(tcp6)
           case Fs => Keys(fs)
           case Cpu => Keys(cpu)
           case Mem => Keys(mem)
           case Iface => IfaceKeys(iface)
           case Load => []
           case DiskIo => []
  {
    var a1, a2, a3 := Advertised(tcp, cfg), Advertised(tcp6, cfg), Advertised(fs, cfg);
    var a4, a5, a6 := Advertised(cpu, cfg), Advertised(mem, cfg), IfaceAdvertised(iface, cfg);
    AdvertisedRequested(tcp, Tcp, cfg, f);
    AdvertisedRequested(tcp6, Tcp6, cfg, f);
    AdvertisedRequested(fs, Fs, cfg, f);
    AdvertisedRequested(cpu, Cpu, cfg, f);
    AdvertisedRequested(mem, Mem, cfg, f);
    IfaceAdvertisedRequested(iface, cfg, f);
    RequestedSix(a1, a2, a3, a4, a5, a6, f);
    var r1, r2, r3 := Requested(a1, f), Requested(a2, f), Requested(a3, f);
    var r4, r5, r6 := Requested(a4, f), Requested(a5, f), Requested(a6, f);
    match f {
      case Tcp => OnlyOneNonEmpty(r1, r2, r3, r4, r5, r6, 1, Keys(tcp));
      case Tcp6 => OnlyOneNonEmpty(r1, r2, r3, r4, r5, r6, 2, Keys(tcp6));
      case Fs => OnlyOneNonEmpty(r1, r2, r3, r4, r5, r6, 3, Keys(fs));
      case Cpu => OnlyOneNonEmpty(r1, r2, r3, r4, r5, r6, 4, Keys(cpu));
      case Mem => OnlyOneNonEmpty(r1, r2, r3, r4, r5, r6, 5, Keys(mem));
      case Iface => OnlyOneNonEmpty(r1, r2, r3, r4, r5, r6, 6, IfaceKeys(iface));
      case Load => OnlyOneNonEmpty(r1, r2, r3, r4, r5, r6, 0, []);
      case DiskIo => OnlyOneNonEmpty(r1, r2, r3, r4, r5, r6, 0, []);
    }
  }

  /** The keys the whole catalog subscribes family f to. */
  function CatalogKeys(f: Family): seq<string>
  {
    match f
    case Tcp => Keys(TcpMap)
    case Tcp6 => Keys(Tcp6Map)
    case Fs => Keys(FsMap)
    case Cpu => Keys(CpuMap)
    case Mem => Keys(MemMap)
    case Iface => IfaceKeys(IfaceMap)
    case Load => []
    case DiskIo => []
  }

  /** Subscribing to the whole catalog, as seen from family f. */
  lemma CatalogRequested(cfg: Config, f: Family)
    ensures AllRoutable(Catalog(cfg))
    ensures Requested(Catalog(cfg), f) == CatalogKeys(f)
  {
    forall m | m in TcpMap ensures m.Family() == Tcp { ScalarMapFamily(Tcp, m); }
    forall m | m in Tcp6Map ensures m.Family() == Tcp6 { ScalarMapFamily(Tcp6, m); }
    forall m | m in FsMap ensures m.Family() == Fs { ScalarMapFamily(Fs, m); }
    forall m | m in CpuMap ensures m.Family() == Cpu { ScalarMapFamily(Cpu, m); }
    forall m | m in MemMap ensures m.Family() == Mem { ScalarMapFamily(Mem, m); }
    AdvertisedCatalogRequested(TcpMap, Tcp6Map, FsMap, CpuMap, MemMap, IfaceMap, cfg, f);
  }

  /** The discovery round trip: a subscription to the whole catalog
      leaves every advertised key, in map order, in its family's list;
      the load and disk I/O lists stay empty. */
  lemma DiscoverySubscribesEverything(cfg: Config)
    ensures AllRoutable(Catalog(cfg))
    ensures forall f :: Rebuilt(Catalog(cfg)).List(f) == CatalogKeys(f)
  {
    CatalogRequested(cfg, Tcp);
    forall f: Family ensures Rebuilt(Catalog(cfg)).List(f) == CatalogKeys(f) {
      CatalogRequested(cfg, f);
      RebuiltList(Catalog(cfg), f);
    }
  }

  // ----- Scenarios -----

  /** A collector that has received no subscription yet reports nothing,
      whatever the containers. */
  method FreshCollectorIsSilent(containers: seq<ContainerInfo>) returns (metrics: seq<PluginMetric>)
    ensures metrics == []
  {
    var c := new Collector();
    NothingSubscribedNothingEmitted(containers);
    metrics := c.Collect(containers);
  }

  /** The interval follows the latest request list: 30 seconds when its
      first request says so, back to 15 when the next one says nothing. */
  method IntervalFollowsLatestRequest() returns (first: Duration, second: Duration)
    ensures first == 30 * Second
    ensures second == 15 * Second
  {
    var c := new Collector();
    var ns := TcpMetric(Established).Namespace("*", "*", "*");
    ScalarNamespaceLayout(TcpMetric(Established), "*", "*", "*");
    var withInterval := Request(ns, map["interval" := IntValue(30)]);
    var without := Request(ns, map[]);
    assert AllRoutable([withInterval]) && AllRoutable([without]);
    c.Update([withInterval]);
    first := c.interval;
    SecondsDoNotWrap(30);
    c.Update([without]);
    second := c.interval;
  }

  /** Discovery followed by a subscription to everything
      discovered: the manifest then lists every advertised key. */
  method SubscribeToCatalog(cfg: Config) returns (subscribed: Subscriptions)
    ensures forall f :: subscribed.List(f) == CatalogKeys(f)
  {
    var c := new Collector();
    var catalog := c.GetMetricTypes(cfg);
    CatalogSize(cfg);
    DiscoverySubscribesEverything(cfg);
    c.Update(catalog);
    subscribed := c.manifest.View();
  }

  /** A single subscribed key of a family that always extracts yields
      exactly its entry's record. */
  lemma OneScalarKey(m: Metric, id: seq<string>, s: ContainerStats)
    requires |id| == 3 && m.Family() != Fs
    ensures Extractable(m.Family(), [m.Key()], s) && m.CanExtract(s)
    ensures ScalarRecords(m.Family(), [m.Key()], id, s) == [ScalarRecord(m, id, s)]
  {
    NonFsExtractable(m.Family(), [m.Key()], s);
    LookupFindsEntry(m);
    ScalarRecordsFound(m.Family(), [m.Key()], id, s, m);
    assert [m.Key()][..0] == [];
  }

  /** A single subscribed interface key fans out over the interfaces. */
  lemma OneIfaceKey(m: IfaceMetric, id: seq<string>, s: ContainerStats)
    requires |id| == 3
    ensures IfaceRecords([m.Key()], id, s) == IfaceFanout(m, id, s.network.interfaces, s.timestamp)
  {
    var keys := [m.Key()];
    LookupIfaceFindsEntry(m);
    assert IfaceKeyRecords(m.Key(), id, s) == IfaceFanout(m, id, s.network.interfaces, s.timestamp);
    assert keys[..0] == [];
    assert IfaceRecords(keys, id, s) == [] + IfaceKeyRecords(m.Key(), id, s);
  }

  lemma TwoInterfaces(m: IfaceMetric, id: seq<string>, e0: InterfaceStats, e1: InterfaceStats, timestamp: int)
    requires |id| == 3
    ensures IfaceFanout(m, id, [e0, e1], timestamp) == [IfaceRecord(m, id, e0, timestamp), IfaceRecord(m, id, e1, timestamp)]
  {
    IfaceFanoutStep(m, id, [e0, e1], 1, timestamp);
    IfaceFanoutStep(m, id, [e0, e1], 0, timestamp);
    assert [e0, e1][..2] == [e0, e1];
    assert [e0, e1][..0] == [];
  }

  /** A reported container with network only: its network section. */
  lemma NetworkOnly(v: Subscriptions, c: ContainerInfo, id: seq<string>)
    requires Ready(v, c) && |c.stats| >= 1 && CheckContainer(c.spec.labels) == (id, true)
    requires !c.spec.hasMemory && !c.spec.hasCpu && !c.spec.hasFilesystem
    ensures ContainerRecords(v, c) == NetworkSection(v, c, id)
  {
    ContainerSections(v, c, id);
  }

  lemma SingleBatch(v: Subscriptions, c: ContainerInfo)
    requires Ready(v, c)
    ensures AllReady(v, [c]) && Batch(v, [c]) == ContainerRecords(v, c)
  {
    assert [c][..0] == [];
  }

  /** Subscribing to one tcp entry and then one interface entry. */
  lemma NetworkSubscriptions(m: Metric, n: IfaceMetric, cfg: Config)
    requires m.Family() == Tcp
    ensures var requests := [Request(m.Namespace("*", "*", "*"), cfg), Request(n.Namespace("*", "*", "*", "*"), cfg)];
      && AllRoutable(requests)
      && Rebuilt(requests) == NoSubscriptions.Add(Tcp, m.Key()).Add(Iface, n.Key())
  {
    var tcpReq := Request(m.Namespace("*", "*", "*"), cfg);
    var ifaceReq := Request(n.Namespace("*", "*", "*", "*"), cfg);
    FamilyNamedName(Tcp);
    ScalarNamespaceLayout(m, "*", "*", "*");
    assert Carries(tcpReq, Tcp, m.Key());
    IfaceRequestRoutes(n, cfg);
    RebuiltPair(tcpReq, ifaceReq, Tcp, m.Key(), Iface, n.Key());
  }

  /** An interface entry's wildcard request is routed to iface with its key. */
  lemma IfaceRequestRoutes(n: IfaceMetric, cfg: Config)
    ensures var ns := Request(n.Namespace("*", "*", "*", "*"), cfg).namespace;
      && Routable(ns) && FamilyNamed(ns[6]) == Some(Iface) && ns[KeyIndex(Iface)] == n.Key()
  {
    DeviceNamespaceLayout(Iface, n.Key(), "*", "*", "*", "*");
    FamilyNamedName(Iface);
  }

  /** Subscriptions to one tcp entry m and one interface entry n, and a
      labelled container with network only and two interfaces: the tcp
      record, then n's record for each interface, in order. */
  lemma NetworkScenario(v: Subscriptions, m: Metric, n: IfaceMetric, c: ContainerInfo, e0: InterfaceStats, e1: InterfaceStats)
    requires m.Family() == Tcp
    requires v.tcp == [m.Key()] && v.tcp6 == [] && v.iface == [n.Key()]
    requires Reported(c)
    requires c.spec.hasNetwork && !c.spec.hasMemory && !c.spec.hasCpu && !c.spec.hasFilesystem
    requires c.stats[0].network.interfaces == [e0, e1]
    ensures AllReady(v, [c])
    ensures var id, s := CheckContainer(c.spec.labels).0, c.stats[0];
      && m.CanExtract(s)
      && Batch(v, [c]) == [ScalarRecord(m, id, s),
                           IfaceRecord(n, id, e0, s.timestamp),
                           IfaceRecord(n, id, e1, s.timestamp)]
  {
    var id, s := CheckContainer(c.spec.labels).0, c.stats[0];
    SingleBatch(v, c);
    NetworkOnly(v, c, id);
    NetworkSectionScenario(v, m, n, c, id, e0, e1);
  }

  lemma NetworkSectionScenario(v: Subscriptions, m: Metric, n: IfaceMetric, c: ContainerInfo, id: seq<string>,
                               e0: InterfaceStats, e1: InterfaceStats)
    requires m.Family() == Tcp
    requires v.tcp == [m.Key()] && v.tcp6 == [] && v.iface == [n.Key()]
    requires |c.stats| >= 1 && |id| == 3 && c.spec.hasNetwork
    requires c.stats[0].network.interfaces == [e0, e1]
    ensures m.CanExtract(c.stats[0])
    ensures NetworkSection(v, c, id) == [ScalarRecord(m, id, c.stats[0]),
                                         IfaceRecord(n, id, e0, c.stats[0].timestamp),
                                         IfaceRecord(n, id, e1, c.stats[0].timestamp)]
  {
    var s := c.stats[0];
    OneScalarKey(m, id, s);
    var tcp := [ScalarRecord(m, id, s)];
    assert ScalarRecords(Tcp, v.tcp, id, s) == tcp;
    NonFsExtractable(Tcp6, [], s);
    assert ScalarRecords(Tcp6, v.tcp6, id, s) == [];
    OneIfaceKey(n, id, s);
    TwoInterfaces(n, id, e0, e1, s.timestamp);
    var iface := [IfaceRecord(n, id, e0, s.timestamp), IfaceRecord(n, id, e1, s.timestamp)];
    assert IfaceRecords(v.iface, id, s) == iface;
    assert NetworkSection(v, c, id) == tcp + [] + iface;
    ThreeRecords(tcp[0], iface[0], iface[1]);
  }

  lemma ThreeRecords(a: PluginMetric, b: PluginMetric, c: PluginMetric)
    ensures [a] + [] + [b, c] == [a, b, c]
  {
  }

  /** The instance with tcp ESTABLISHED and iface in_bytes: the records
      carry the established-connection count, then each interface's
      received bytes under its own name. */
  lemma EstablishedAndInBytes(v: Subscriptions, c: ContainerInfo, e0: InterfaceStats, e1: InterfaceStats)
    requires v.tcp == [TcpMetric(Established).Key()] && v.tcp6 == [] && v.iface == [InBytes.Key()]
    requires Reported(c)
    requires c.spec.hasNetwork && !c.spec.hasMemory && !c.spec.hasCpu && !c.spec.hasFilesystem
    requires c.stats[0].network.interfaces == [e0, e1]
    ensures AllReady(v, [c])
    ensures var out := Batch(v, [c]);
      && |out| == 3
      && out[0].data == Some(Uint(c.stats[0].network.tcp.established))
      && |out[1].namespace| == 9 && |out[2].namespace| == 9
      && out[1].data == Some(Uint(e0.rxBytes)) && out[1].namespace[7] == e0.name
      && out[2].data == Some(Uint(e1.rxBytes)) && out[2].namespace[7] == e1.name
  {
    NetworkScenario(v, TcpMetric(Established), InBytes, c, e0, e1);
    var id := CheckContainer(c.spec.labels).0;
    DeviceNamespaceLayout(Iface, InBytes.Key(), id[0], id[1], id[2], e0.name);
    DeviceNamespaceLayout(Iface, InBytes.Key(), id[0], id[1], id[2], e1.name);
  }
}
