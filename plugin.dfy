/** The slice of the Snap plugin library the collector talks through:
    namespaces, metric values, the configuration Snap hands in and plugin.Metric. */
module Plugin {
  import opened Wrappers
  import opened Durations

  /** A namespace is the sequence of its elements' values. */
  type Namespace = seq<string>

  /** The metric payload, Go's `interface{}`: the collector only ever
      stores unsigned counters and cAdvisor's signed load average. */
  datatype Value = Uint(n: nat) | Int(i: int)

  /** A configuration entry handed in by Snap. */
  datatype ConfigValue = IntValue(i: Int64) | StringValue(s: string) | BoolValue(b: bool)

  type Config = map<string, ConfigValue>

  /** Config.GetInt: the integer stored under key, or None (Go's non-nil
      error) when the key is absent or holds something else. */
  function GetInt(cfg: Config, key: string): (r: Option<Int64>)
    ensures r.Some? <==> key in cfg && cfg[key].IntValue?
    ensures r.Some? ==> cfg[key] == IntValue(r.value)
  {
    if key in cfg then
      match cfg[key]
      case IntValue(i) => Some(i)
      case _ => None
    else None
  }

  /** plugin.Metric, reduced to the fields the collector reads or sets.
      `data` is None where Go leaves Data nil and `timestamp` is None
      where Go leaves the zero time. */
  datatype PluginMetric = PluginMetric(
    namespace: Namespace,
    description: string,
    unit: string,
    data: Option<Value>,
    timestamp: Option<int>,
    config: Config)

  /** A subscription request as Snap hands it in: only a namespace and
      the configuration are filled in. */
  function Request(ns: Namespace, cfg: Config): PluginMetric
  {
    PluginMetric(ns, "", "", None, None, cfg)
  }
}
