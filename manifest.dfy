/** The subscription manifest of cadvisor/manifest.go: per family, the
    keys Snap currently asks for, rebuilt from scratch on every update. */
module Manifests {
  import opened Wrappers
  import opened Durations
  import opened Plugin
  import opened Metrics

  /** The family a namespace's element 6 names, tried in the order
      tcp, tcp6, cpu, load, iface, fs, mem, diskio. */
  function FamilyNamed(s: string): (r: Option<Family>)
    ensures r.Some? ==> r.value.Name() == s
    ensures r.None? ==> forall f: Family :: f.Name() != s
  {
    if s == "tcp" then Some(Tcp)
    else if s == "tcp6" then Some(Tcp6)
    else if s == "cpu" then Some(Cpu)
    else if s == "load" then Some(Load)
    else if s == "iface" then Some(Iface)
    else if s == "fs" then Some(Fs)
    else if s == "mem" then Some(Mem)
    else if s == "diskio" then Some(DiskIo)
    else None
  }

  /** Every family is found again from its own name. */
  lemma FamilyNamedName(f: Family)
    ensures FamilyNamed(f.Name()) == Some(f)
  {
    match f {
      case Tcp => assert "tcp" == f.Name();
      case Tcp6 => assert "tcp6" != "tcp";
      case Cpu => assert "cpu" != "tcp" && "cpu" != "tcp6";
      case Load => assert "load" != "tcp" && "load" != "tcp6" && "load" != "cpu";
      case Iface => assert "iface"[0] == 'i';
      case Fs => assert "fs"[0] == 'f' && "fs" != "iface";
      case Mem => assert "mem"[0] == 'm';
      case DiskIo => assert "diskio"[0] == 'd';
    }
  }

  /** Where the key sits: element 8 behind the device for iface and
      diskio, element 7 otherwise. */
  function KeyIndex(f: Family): nat
  {
    if f.PerDevice() then 8 else 7
  }

  /** Every element the rebuild reads exists. What Namespace.Element
      returns past the end of a namespace is not part of this model. */
  predicate Routable(ns: Namespace)
  {
    && |ns| > 6
    && match FamilyNamed(ns[6])
       case Some(f) => |ns| > KeyIndex(f)
       case None => true
  }

  predicate AllRoutable(rs: seq<PluginMetric>)
  {
    forall i :: 0 <= i < |rs| ==> Routable(rs[i].namespace)
  }

  /** The keys requested for family f, in request order, duplicates kept:
      the list the rebuild leaves for f. */
  function Requested(rs: seq<PluginMetric>, f: Family): seq<string>
    requires AllRoutable(rs)
  {
    if rs == [] then []
    else
      var ns := rs[|rs| - 1].namespace;
      Requested(rs[..|rs| - 1], f)
        + (if FamilyNamed(ns[6]) == Some(f) then [ns[KeyIndex(f)]] else [])
  }

  /** The requests whose family is recognised; the others are logged and
      dropped. */
  function Recognised(rs: seq<PluginMetric>): seq<PluginMetric>
    requires AllRoutable(rs)
  {
    if rs == [] then []
    else
      Recognised(rs[..|rs| - 1])
        + (if FamilyNamed(rs[|rs| - 1].namespace[6]).Some? then [rs[|rs| - 1]] else [])
  }

  /** The polling interval: the "interval" setting of the first request,
      in seconds, or 15 seconds when it cannot be read as an integer. */
  function ResolveInterval(cfg: Config): (d: Duration)
    ensures GetInt(cfg, "interval").None? ==> d == 15 * Second
    ensures GetInt(cfg, "interval").Some? && 0 <= GetInt(cfg, "interval").value <= MaxSeconds
      ==> d == GetInt(cfg, "interval").value * Second
  {
    match GetInt(cfg, "interval")
    case None => Mul(Second, 15)
    case Some(n) => Mul(Second, n)
  }

  /** The eight lists, as one value. */
  datatype Subscriptions = Subscriptions(
    tcp: seq<string>, tcp6: seq<string>, cpu: seq<string>, load: seq<string>,
    iface: seq<string>, fs: seq<string>, diskIo: seq<string>, mem: seq<string>)
  {
    function List(f: Family): seq<string>
    {
      match f
      case Tcp => tcp
      case Tcp6 => tcp6
      case Cpu => cpu
      case Load => load
      case Iface => iface
      case Fs => fs
      case DiskIo => diskIo
      case Mem => mem
    }

    /** The lists with k appended to f's list. */
    function Add(f: Family, k: string): (r: Subscriptions)
      ensures r.List(f) == List(f) + [k]
      ensures forall g: Family :: g != f ==> r.List(g) == List(g)
      ensures r.Size() == Size() + 1
    {
      match f
      case Tcp => this.(tcp := tcp + [k])
      case Tcp6 => this.(tcp6 := tcp6 + [k])
      case Cpu => this.(cpu := cpu + [k])
      case Load => this.(load := load + [k])
      case Iface => this.(iface := iface + [k])
      case Fs => this.(fs := fs + [k])
      case DiskIo => this.(diskIo := diskIo + [k])
      case Mem => this.(mem := mem + [k])
    }

    /** Total number of keys over all eight lists. */
    function Size(): nat
    {
      |tcp| + |tcp6| + |cpu| + |load| + |iface| + |fs| + |diskIo| + |mem|
    }
  }

  const NoSubscriptions: Subscriptions := Subscriptions([], [], [], [], [], [], [], [])

  /** What a rebuild from rs leaves behind. */
  function Rebuilt(rs: seq<PluginMetric>): Subscriptions
    requires AllRoutable(rs)
  {
    Subscriptions(
      Requested(rs, Tcp), Requested(rs, Tcp6), Requested(rs, Cpu), Requested(rs, Load),
      Requested(rs, Iface), Requested(rs, Fs), Requested(rs, DiskIo), Requested(rs, Mem))
  }

  /** One more request: its key goes to the end of the list of the family
      it names, or nowhere when it names none. */
  lemma RebuiltSnoc(rs: seq<PluginMetric>, r: PluginMetric)
    requires AllRoutable(rs) && Routable(r.namespace)
    ensures AllRoutable(rs + [r])
    ensures Rebuilt(rs + [r]) == match FamilyNamed(r.namespace[6])
      case None => Rebuilt(rs)
      case Some(f) => Rebuilt(rs).Add(f, r.namespace[KeyIndex(f)])
  {
    var rs' := rs + [r];
    assert rs'[..|rs'| - 1] == rs;
    assert AllRoutable(rs') by {
      forall i | 0 <= i < |rs'| ensures Routable(rs'[i].namespace) {
        if i < |rs| { assert rs'[i] == rs[i]; }
      }
    }
  }

  /** RebuiltSnoc, phrased for a loop over the prefixes of rs. */
  lemma RebuiltPrefixStep(rs: seq<PluginMetric>, i: nat)
    requires AllRoutable(rs) && i < |rs|
    ensures AllRoutable(rs[..i])
    ensures Rebuilt(rs[..i + 1]) == match FamilyNamed(rs[i].namespace[6])
      case None => Rebuilt(rs[..i])
      case Some(f) => Rebuilt(rs[..i]).Add(f, rs[i].namespace[KeyIndex(f)])
  {
    assert rs[..i + 1] == rs[..i] + [rs[i]];
    RebuiltSnoc(rs[..i], rs[i]);
  }

  class Manifest {
    var tcpMetrics: seq<string>
    var tcp6Metrics: seq<string>
    var cpuMetrics: seq<string>
    var loadMetrics: seq<string>
    var ifaceMetrics: seq<string>
    var fsMetrics: seq<string>
    var diskIoMetrics: seq<string>
    var memMetrics: seq<string>

    function View(): Subscriptions
      reads this
    {
      Subscriptions(tcpMetrics, tcp6Metrics, cpuMetrics, loadMetrics,
                    ifaceMetrics, fsMetrics, diskIoMetrics, memMetrics)
    }

    /** Go's zero Manifest{}: every list empty. */
    constructor ()
      ensures View() == NoSubscriptions
    {
      tcpMetrics, tcp6Metrics, cpuMetrics, loadMetrics := [], [], [], [];
      ifaceMetrics, fsMetrics, diskIoMetrics, memMetrics := [], [], [], [];
    }

    /** One pass of the loop body: the key of ns goes to the end of the
        list of the family element 6 names. */
    method Dispatch(ns: Namespace)
      requires Routable(ns)
      modifies this
      ensures View() == match FamilyNamed(ns[6])
        case None => old(View())
        case Some(f) => old(View()).Add(f, ns[KeyIndex(f)])
    {
      if ns[6] == "tcp" {
        assert FamilyNamed(ns[6]) == Some(Tcp);
        tcpMetrics := tcpMetrics + [ns[7]];
        return;
      }
      if ns[6] == "tcp6" {
        assert FamilyNamed(ns[6]) == Some(Tcp6);
        tcp6Metrics := tcp6Metrics + [ns[7]];
        return;
      }
      if ns[6] == "cpu" {
        assert FamilyNamed(ns[6]) == Some(Cpu);
        cpuMetrics := cpuMetrics + [ns[7]];
        return;
      }
      if ns[6] == "load" {
        assert FamilyNamed(ns[6]) == Some(Load);
        loadMetrics := loadMetrics + [ns[7]];
        return;
      }
      if ns[6] == "iface" {
        assert FamilyNamed(ns[6]) == Some(Iface);
        ifaceMetrics := ifaceMetrics + [ns[8]];
        return;
      }
      if ns[6] == "fs" {
        assert FamilyNamed(ns[6]) == Some(Fs);
        fsMetrics := fsMetrics + [ns[7]];
        return;
      }
      if ns[6] == "mem" {
        assert FamilyNamed(ns[6]) == Some(Mem);
        memMetrics := memMetrics + [ns[7]];
        return;
      }
      if ns[6] == "diskio" {
        assert FamilyNamed(ns[6]) == Some(DiskIo);
        diskIoMetrics := diskIoMetrics + [ns[8]];
        return;
      }
      // "metric ... not found but requested": logged and dropped
      assert FamilyNamed(ns[6]) == None;
    }

    /** buildMetricsList: empty all eight lists, resolve the interval from
        the first request, then append each request's key to the list of
        the family its element 6 names. The new lists depend on the
        requests alone, never on the old ones. */
    method BuildMetricsList(metrics: seq<PluginMetric>) returns (interval: Duration)
      requires |metrics| > 0
      requires AllRoutable(metrics)
      modifies this
      ensures View() == Rebuilt(metrics)
      ensures interval == ResolveInterval(metrics[0].config)
    {
      tcpMetrics, tcp6Metrics, cpuMetrics, loadMetrics := [], [], [], [];
      ifaceMetrics, fsMetrics, memMetrics, diskIoMetrics := [], [], [], [];
      match GetInt(metrics[0].config, "interval") {
        case None => interval := Mul(Second, 15);
        case Some(intervalVal) => interval := Mul(Second, intervalVal);
      }
      for i := 0 to |metrics|
        invariant View() == Rebuilt(metrics[..i])
      {
        RebuiltPrefixStep(metrics, i);
        Dispatch(metrics[i].namespace);
      }
      assert metrics[..|metrics|] == metrics;
    }
  }

  // ----- Properties of the rebuild -----

  /** Rebuilding from a concatenation gives, per family, the concatenation
      of the two rebuilds: request order is kept. */
  lemma {:induction false} RequestedAppend(a: seq<PluginMetric>, b: seq<PluginMetric>, f: Family)
    requires AllRoutable(a) && AllRoutable(b)
    ensures AllRoutable(a + b)
    ensures Requested(a + b, f) == Requested(a, f) + Requested(b, f)
    decreases |b|
  {
    assert AllRoutable(a + b) by {
      forall i | 0 <= i < |a + b| ensures Routable((a + b)[i].namespace) {
        if i >= |a| { assert (a + b)[i] == b[i - |a|]; }
      }
    }
    if b == [] {
      assert a + b == a;
    } else {
      var b' := b[..|b| - 1];
      var last := b[|b| - 1].namespace;
      var tail := if FamilyNamed(last[6]) == Some(f) then [last[KeyIndex(f)]] else [];
      assert (a + b)[..|a + b| - 1] == a + b';
      assert (a + b)[|a + b| - 1] == b[|b| - 1];
      RequestedAppend(a, b', f);
      calc {
        Requested(a + b, f);
        Requested(a + b', f) + tail;
        (Requested(a, f) + Requested(b', f)) + tail;
        Requested(a, f) + (Requested(b', f) + tail);
        Requested(a, f) + Requested(b, f);
      }
    }
  }

  /** Each list of a rebuild is that family's requested keys. */
  lemma RebuiltList(rs: seq<PluginMetric>, f: Family)
    requires AllRoutable(rs)
    ensures Rebuilt(rs).List(f) == Requested(rs, f)
  {
  }

  /** A single request's contribution to f's list. */
  lemma RequestedSingle(r: PluginMetric, f: Family)
    requires Routable(r.namespace)
    ensures AllRoutable([r])
    ensures Requested([r], f) == if FamilyNamed(r.namespace[6]) == Some(f) then [r.namespace[KeyIndex(f)]] else []
  {
    assert [r][..0] == [];
  }

  /** Request r names family f and carries key k where f's keys sit. */
  predicate Carries(r: PluginMetric, f: Family, k: string)
  {
    && Routable(r.namespace)
    && FamilyNamed(r.namespace[6]) == Some(f)
    && r.namespace[KeyIndex(f)] == k
  }

  lemma {:induction false} RequestedOnlyCarried(rs: seq<PluginMetric>, f: Family, k: string)
    requires AllRoutable(rs) && k in Requested(rs, f)
    ensures exists i :: 0 <= i < |rs| && Carries(rs[i], f, k)
  {
    var init := rs[..|rs| - 1];
    if k in Requested(init, f) {
      RequestedOnlyCarried(init, f, k);
      var i :| 0 <= i < |init| && Carries(init[i], f, k);
      assert rs[i] == init[i];
    } else {
      assert Carries(rs[|rs| - 1], f, k);
    }
  }

  lemma {:induction false} CarriedIsRequested(rs: seq<PluginMetric>, f: Family, k: string, i: nat)
    requires AllRoutable(rs) && i < |rs| && Carries(rs[i], f, k)
    ensures k in Requested(rs, f)
  {
    var init := rs[..|rs| - 1];
    if i < |init| {
      assert init[i] == rs[i];
      CarriedIsRequested(init, f, k, i);
    }
  }

  /** A key is in f's list exactly when some request names family f and
      carries that key. */
  lemma RequestedMembership(rs: seq<PluginMetric>, f: Family, k: string)
    requires AllRoutable(rs)
    ensures k in Requested(rs, f) <==> exists i :: 0 <= i < |rs| && Carries(rs[i], f, k)
  {
    if k in Requested(rs, f) {
      RequestedOnlyCarried(rs, f, k);
    }
    if exists i :: 0 <= i < |rs| && Carries(rs[i], f, k) {
      var i :| 0 <= i < |rs| && Carries(rs[i], f, k);
      CarriedIsRequested(rs, f, k, i);
    }
  }

  /** Each recognised request lands in exactly one list and the others in
      none: the lists together hold as many keys as there are recognised
      requests. */
  lemma {:induction false} RebuiltSize(rs: seq<PluginMetric>)
    requires AllRoutable(rs)
    ensures Rebuilt(rs).Size() == |Recognised(rs)| <= |rs|
  {
    if rs != [] {
      var init := rs[..|rs| - 1];
      RebuiltSize(init);
      assert init + [rs[|rs| - 1]] == rs;
      RebuiltSnoc(init, rs[|rs| - 1]);
    }
  }

  /** The layout round trip: a request for any catalog entry's wildcard
      namespace puts that entry's key in that entry's family list and
      nothing anywhere else. */
  lemma ScalarRoundTrip(m: Metric, cfg: Config)
    ensures var rs := [Request(m.Namespace("*", "*", "*"), cfg)];
      && AllRoutable(rs)
      && Rebuilt(rs) == NoSubscriptions.Add(m.Family(), m.Key())
  {
    FamilyNamedName(m.Family());
    ScalarNamespaceLayout(m, "*", "*", "*");
    var r := Request(m.Namespace("*", "*", "*"), cfg);
    RebuiltSnoc([], r);
    assert [] + [r] == [r];
  }

  /** Two requests, each carrying a key for a family, subscribe the first
      key and then the second, and nothing else. */
  lemma RebuiltPair(a: PluginMetric, b: PluginMetric, f: Family, ka: string, g: Family, kb: string)
    requires Carries(a, f, ka) && Carries(b, g, kb)
    ensures AllRoutable([a, b])
    ensures Rebuilt([a, b]) == NoSubscriptions.Add(f, ka).Add(g, kb)
  {
    RebuiltSnoc([], a);
    assert [] + [a] == [a];
    RebuiltSnoc([a], b);
    assert [a] + [b] == [a, b];
  }

  lemma IfaceRoundTrip(m: IfaceMetric, device: string, cfg: Config)
    ensures var rs := [Request(m.Namespace("*", "*", "*", device), cfg)];
      && AllRoutable(rs)
      && Rebuilt(rs) == NoSubscriptions.Add(Iface, m.Key())
  {
    FamilyNamedName(Iface);
    DeviceNamespaceLayout(Iface, m.Key(), "*", "*", "*", device);
    var r := Request(m.Namespace("*", "*", "*", device), cfg);
    RebuiltSnoc([], r);
    assert [] + [r] == [r];
  }

  lemma DiskIoRoundTrip(m: DiskIoMetric, device: string, cfg: Config)
    ensures var rs := [Request(m.Namespace("*", "*", "*", device), cfg)];
      && AllRoutable(rs)
      && Rebuilt(rs) == NoSubscriptions.Add(DiskIo, m.Key())
  {
    FamilyNamedName(DiskIo);
    DeviceNamespaceLayout(DiskIo, m.Key(), "*", "*", "*", device);
    var r := Request(m.Namespace("*", "*", "*", device), cfg);
    RebuiltSnoc([], r);
    assert [] + [r] == [r];
  }

  /** A client of the manifest: a second rebuild from the same requests
      leaves the same state and returns the same interval as the first. */
  method RebuildTwice(m: Manifest, metrics: seq<PluginMetric>)
    returns (first: Subscriptions, second: Subscriptions, d1: Duration, d2: Duration)
    requires |metrics| > 0 && AllRoutable(metrics)
    modifies m
    ensures first == second == m.View() == Rebuilt(metrics)
    ensures d1 == d2 == ResolveInterval(metrics[0].config)
  {
    d1 := m.BuildMetricsList(metrics);
    first := m.View();
    d2 := m.BuildMetricsList(metrics);
    second := m.View();
  }

  /** The case of manifest_test.go: a request for tcp ESTABLISHED. */
  method EstablishedIsSubscribed() returns (tcp: seq<string>)
    ensures tcp == ["ESTABLISHED"]
  {
    var m := new Manifest();
    var ns := ContainerNamespace("*", "*", "*") + ["tcp", "ESTABLISHED"];
    var metricList1 := [Request(ns, map[])];
    FamilyNamedName(Tcp);
    RebuiltSnoc([], metricList1[0]);
    assert [] + metricList1 == metricList1;
    var _ := m.BuildMetricsList(metricList1);
    tcp := m.tcpMetrics;
  }
}
