# cAdvisor collector for Snap: a Dafny model

This project models the core of the cAdvisor collector plugin for the Snap telemetry framework. The plugin reads container statistics from cAdvisor and turns them into Snap metrics. Three pieces are modelled:

- **The metric catalog** (`cadvisor/metrics.go`), in module `Metrics`. It holds seven literal maps from a metric key to its namespace builder, unit, description and value extractor:
  - cpu, tcp, tcp6, mem and fs work on a whole container sample;
  - iface works on one network interface;
  - diskio works on one block device.

  Each map entry is a constructor of `Metric`, `IfaceMetric` or `DiskIoMetric`. Each map is the sequence of its entries in source order.
- **The manifest** (`cadvisor/manifest.go`), in module `Manifests`. It is a class with the eight per-family key lists. `BuildMetricsList` empties the lists and reads the polling interval from the first request. It then routes every requested namespace by element 6 and appends element 7 (element 8 for iface and diskio) to that family's list. The loop is proved against `Rebuilt`, a function of the request list. Lemmas over that function state what the rebuild means: which keys land in which list, in order, and the round trip from catalog namespace to subscription.
- **The collector** (`cadvisor/collector.go`), in module `Collection`. It covers:
  - `checkContainer` as a pure function;
  - one pass of the `StreamMetrics` loop, as `Collector.Collect` with its nested emission loops, proved against `Batch`;
  - one turn of `buildOrganizer`, as `Collector.Update`;
  - `GetMetricTypes`, proved against `Catalog`;
  - `NewCollector`, as the `Collector` constructor.

  Lemmas state:
  - what every emitted record is: its identity, timestamp, value, an enabled family and a subscribed key, and the entry and sample (or interface) it was read from;
  - that every subscribed entry of an enabled family is emitted, and every subscribed interface entry once per interface;
  - how many records a pass emits;
  - that unlabelled containers and containers without a sample contribute nothing;
  - that subscribing to the whole discovered catalog fills every list with exactly that family's catalog keys.

Support modules:

- `Wrappers`: the `Option` type.
- `Durations`: Go's `int64` and `time.Duration`. Multiplication wraps around at 64 bits.
- `Plugin`: the slice of the Snap plugin library that is used, meaning namespaces, values, `Config.GetInt` and `plugin.Metric`.
- `Stats`: the cAdvisor statistics types that are read.

Facts about the code that the model keeps:

- CPU time values are the raw nanosecond counters, with unit "ns".
- The diskio map is never used when emitting or advertising. A diskio subscription is recorded in the manifest and never read.
- The "load" list of the manifest is filled but never read. No catalog map has a "load" family.
- Interface keys are `in_bytes`, `out_bytes` and so on. The "in" keys read the receive (Rx) counters and the "out" keys read the transmit (Tx) counters.

## Model

| member | source | states |
|---|---|---|
| Durations.Wrap64 | cadvisor/manifest.go:37 | truncation to int64 agrees with the unbounded value modulo 2^64 and is the identity on values that fit |
| Durations.Mul | cadvisor/manifest.go:37 | `time.Second * n` is the exact product whenever it fits in an int64 |
| Durations.SecondsDoNotWrap | cadvisor/manifest.go:35-37 | for 0 <= n <= 9223372036 the duration is exactly n seconds |
| Plugin.GetInt | cadvisor/manifest.go:32 | a value comes back exactly when the key is present and holds an integer, and it is that integer |
| Metrics.Find | cadvisor/metrics.go:62-713 | a found entry is in the map under that key; when nothing is found, no entry carries the key |
| Metrics.Metric.Family | cadvisor/metrics.go:62-426 | every cpu, tcp, tcp6, mem and fs entry belongs to a family without a device element |
| Metrics.Lookup | cadvisor/collector.go:122 | map indexing by key: a found entry is in the table with that key; otherwise the key is absent |
| Metrics.LookupIface | cadvisor/collector.go:150 | ifaceMap indexing: a found entry has that key; otherwise no interface entry has it |
| Metrics.ScalarMapComplete | cadvisor/metrics.go:62-426 | every cpu, tcp, tcp6, mem and fs entry is in the map of its own family |
| Metrics.ScalarMapFamily | cadvisor/metrics.go:62-426 | every entry of a family's map belongs to that family |
| Metrics.TcpStateInMap | cadvisor/metrics.go:106-330 | all eleven TCP states appear in both tcpMap and tcp6Map |
| Metrics.IfaceMapComplete | cadvisor/metrics.go:599-712 | every interface entry is in ifaceMap |
| Metrics.DiskIoMapComplete | cadvisor/metrics.go:428-597 | every disk entry is in diskIoMap |
| Metrics.KeysIdentifyEntries | cadvisor/metrics.go:62-426 | within one family, two entries with the same key are the same entry, so each Go map key is unique |
| Metrics.LookupFindsEntry | cadvisor/metrics.go:62-426 | looking up an entry's own key in its family's map finds that entry |
| Metrics.IfaceKeysIdentifyEntries | cadvisor/metrics.go:599-712 | interface keys are unique |
| Metrics.LookupIfaceFindsEntry | cadvisor/metrics.go:599-712 | looking up an interface entry's key finds that entry |
| Metrics.ScalarNamespaceLayout | cadvisor/metrics.go:36-60 | a scalar namespace is the six container elements, then the family name at 6 and the key at 7; only the cpu time counters add "usage" at 8 |
| Metrics.DeviceNamespaceLayout | cadvisor/metrics.go:599-611 | a per-device namespace has nine elements: family at 6, the device name (or the wildcard) at 7, the key at 8 |
| Metrics.DeviceRenameTouchesOnlyElement7 | cadvisor/metrics.go:602-605 | naming the device changes element 7 only, and two names give equal namespaces exactly when they are equal |
| Metrics.UnitsByFamily | cadvisor/metrics.go:62-426 | units are fixed per family: cpu time "ns", load "load", tcp "event", memory "B", fs "B" or "inodes" |
| Metrics.CpuValuesAreRaw | cadvisor/metrics.go:64-103 | the cpu extractors return the raw total, user and system nanosecond counters and the signed load average |
| Metrics.DiskIoSidesPickTheirCounter | cadvisor/metrics.go:428-597 | diskIoMap has six read-side entries, then their six write-side twins with the same units; every read-side extractor returns the device's "Read" counter and every write-side one its "Write" counter |
| Metrics.IfaceKeysPickTheirDirection | cadvisor/metrics.go:599-712 | every interface key starts with exactly one of "in_" and "out_"; "in_" keys read a receive counter and "out_" keys a transmit counter |
| Manifests.FamilyNamed | cadvisor/manifest.go:40-71 | element 6 selects the family with that name, or no family when none has it |
| Manifests.FamilyNamedName | cadvisor/manifest.go:40-71 | every family's own name selects that family, so no branch of the chain is shadowed |
| Manifests.ResolveInterval | cadvisor/manifest.go:32-38 | with no integer "interval" the interval is 15 s; a non-negative integer that fits gives that many seconds |
| Manifests.Subscriptions.Add | cadvisor/manifest.go:41 | appending a key to one family's list appends it at the end of that list, leaves the other seven unchanged and grows the total by one |
| Manifests.RebuiltSnoc | cadvisor/manifest.go:39-73 | one more request appends its key to its family's list when element 6 names a family; otherwise it changes nothing |
| Manifests.RequestedAppend | cadvisor/manifest.go:39-73 | the keys requested over two request lists are those of the first followed by those of the second |
| Manifests.RequestedSingle | cadvisor/manifest.go:40-71 | a single request yields its key (element 7, or 8 for iface and diskio) in its family's list and nothing elsewhere |
| Manifests.RequestedOnlyCarried | cadvisor/manifest.go:39-73 | every key in a family's list was carried by some request naming that family |
| Manifests.CarriedIsRequested | cadvisor/manifest.go:39-73 | every key carried by a request naming a family ends up in that family's list |
| Manifests.RequestedMembership | cadvisor/manifest.go:39-73 | a key is in a family's list exactly when some request names that family and carries that key |
| Manifests.RebuiltSize | cadvisor/manifest.go:39-73 | the lists together hold one key per recognised request, so no more keys than requests; unrecognised requests are dropped |
| Manifests.ScalarRoundTrip | cadvisor/manifest.go:39-73 | requesting a scalar catalog entry's wildcard namespace subscribes exactly that entry's key in its family |
| Manifests.IfaceRoundTrip | cadvisor/manifest.go:56-58 | requesting an interface entry's namespace, with any device, subscribes exactly its key under iface |
| Manifests.DiskIoRoundTrip | cadvisor/manifest.go:68-70 | requesting a disk entry's namespace, with any device, subscribes exactly its key under diskio |
| Manifests.Manifest.constructor | cadvisor/manifest.go:12-21 | a new manifest has eight empty lists |
| Manifests.Manifest.Dispatch | cadvisor/manifest.go:40-72 | one request appends its key to the list its element 6 names, and leaves every list unchanged when no family matches |
| Manifests.Manifest.BuildMetricsList | cadvisor/manifest.go:23-75 | the lists become exactly the rebuild of the request list, whatever they held before, and the result is the interval of the first request's configuration |
| Manifests.RebuildTwice | cadvisor/manifest.go:23-75 | rebuilding twice from the same requests leaves the same lists and returns the same interval both times: the rebuild is idempotent |
| Manifests.RebuiltPair | cadvisor/manifest.go:39-73 | two requests, each carrying a key for a family, subscribe the first key and then the second, and nothing else |
| Manifests.EstablishedIsSubscribed | cadvisor/manifest_test.go:9-24 | a request for tcp ESTABLISHED leaves the tcp list ["ESTABLISHED"] |
| Collection.CheckContainer | cadvisor/collector.go:224-237 | succeeds exactly when all three Kubernetes labels are present and then returns [namespace, pod, container]; otherwise three empty strings |
| Collection.ReportedOnly | cadvisor/collector.go:112-119 | keeps exactly the containers that have a sample and the three labels: every kept one is reported and every reported one is kept |
| Collection.ReportedOnlyAppend | cadvisor/collector.go:112-119 | the filter keeps input order: filtering a concatenation is the concatenation of the filtered parts |
| Collection.EmitScalar | cadvisor/collector.go:121-134 | the loop over one scalar family's keys appends each known key's record in key order and skips unknown keys |
| Collection.EmitFanout | cadvisor/collector.go:155-163 | one interface entry yields one record per interface, in interface order |
| Collection.EmitIface | cadvisor/collector.go:149-164 | the interface records are key-major and interface-minor; unknown keys are skipped |
| Collection.EmitIfaceKey | cadvisor/collector.go:150-163 | one interface key: skipped when ifaceMap does not know it, otherwise its entry over every interface |
| Collection.EmitContainer | cadvisor/collector.go:120-216 | the body of the container loop appends exactly that container's records |
| Collection.AdvertiseScalar | cadvisor/collector.go:245-252 | the loop over a scalar map appends one template per entry in map order |
| Collection.AdvertiseIface | cadvisor/collector.go:290-297 | the loop over ifaceMap appends one wildcard-device template per entry |
| Collection.Collector.constructor | cadvisor/collector.go:312-318 | a new collector has an empty manifest and a 15 second interval |
| Collection.Collector.Update | cadvisor/collector.go:73-79 | a new request list rebuilds the manifest and sets the interval from it |
| Collection.Collector.Collect | cadvisor/collector.go:111-217 | one pass emits exactly the records of each container, in the order the containers are given |
| Collection.Collector.GetMetricTypes | cadvisor/collector.go:242-299 | the catalog is tcp, tcp6, fs, cpu, mem and iface templates in that order |
| Collection.BatchAppend | cadvisor/collector.go:112-217 | a pass over two container lists is the first pass followed by the second: containers are independent |
| Collection.UnreportedContributeNothing | cadvisor/collector.go:113-119 | containers without a sample or without the labels add nothing to a pass |
| Collection.NothingSubscribedNothingEmitted | cadvisor/collector.go:111-217 | with every list empty, a pass emits nothing |
| Collection.ScalarRecordsCount | cadvisor/collector.go:121-134 | when every subscribed key is known, a scalar family yields exactly one record per key |
| Collection.IfaceFanoutLength | cadvisor/collector.go:155-163 | one interface entry yields as many records as there are interfaces |
| Collection.IfaceRecordsCount | cadvisor/collector.go:149-164 | with every key known, the interface section has keys × interfaces records |
| Collection.ScalarRecordsFound | cadvisor/collector.go:121-134 | a final key the map knows contributes its entry's record at the end |
| Collection.ScalarRecordOrigin | cadvisor/collector.go:121-134 | every scalar record comes from a map entry whose key is subscribed |
| Collection.ScalarRecordEmitted | cadvisor/collector.go:121-134 | every subscribed map entry yields its record |
| Collection.ScalarRecordsMembership | cadvisor/collector.go:121-134 | a record is emitted for a family exactly when it is the record of a subscribed entry of that family's map |
| Collection.IfaceFanoutOrigin | cadvisor/collector.go:155-163 | every fan-out record is the entry's record for one of the interfaces |
| Collection.IfaceRecordOrigin | cadvisor/collector.go:149-164 | every interface record comes from a subscribed interface entry and one of the sample's interfaces |
| Collection.ScalarRecordDescribes | cadvisor/collector.go:127-133 | a scalar record carries the container's identity at elements 3-5, the sample's timestamp, a value, an enabled family and a subscribed key, and is the record of its map entry read from the container's first sample |
| Collection.IfaceRecordDescribes | cadvisor/collector.go:156-162 | the same holds for an interface record, whose key sits at element 8 and which is read from one of the first sample's interfaces |
| Collection.ContainerRecordDescribes | cadvisor/collector.go:120-216 | every record of a container describes that container |
| Collection.EmittedRecordsDescribeContainers | cadvisor/collector.go:111-217 | every record of a pass describes one of the containers passed in: its labels, its first sample, a family its capabilities enable, a subscribed key, and the entry and sample or interface its value is read from |
| Collection.SubscribedEntryIsEmitted | cadvisor/collector.go:120-216 | conversely, every subscribed catalog entry of an enabled family is emitted for every reported container |
| Collection.IfaceFanoutContains | cadvisor/collector.go:155-163 | an interface entry's fan-out holds its record for every interface |
| Collection.IfaceRecordEmitted | cadvisor/collector.go:149-164 | every subscribed interface entry yields its record for every interface of the sample |
| Collection.SubscribedIfaceEntryIsEmitted | cadvisor/collector.go:120-165 | every subscribed interface entry is emitted once for each interface of a reported container with network |
| Collection.AdvertisedLength | cadvisor/collector.go:245-252 | one template per map entry |
| Collection.IfaceAdvertisedLength | cadvisor/collector.go:290-297 | one template per interface entry |
| Collection.CatalogSize | cadvisor/collector.go:242-299 | the catalog has 11 + 11 + 3 + 4 + 6 + 8 = 43 entries |
| Collection.AdvertisedTemplates | cadvisor/collector.go:245-252 | every advertised metric has the wildcard identity, no value, no timestamp and the configuration handed in; none is an interface template |
| Collection.IfaceAdvertisedTemplates | cadvisor/collector.go:290-297 | every interface template has the wildcard identity, the wildcard device at element 7, no value, no timestamp and the configuration handed in |
| Collection.CatalogTemplates | cadvisor/collector.go:242-299 | the same holds for every catalog entry |
| Collection.AdvertisedRequested | cadvisor/collector.go:245-252 | requesting a scalar map's templates subscribes that map's keys for its family and nothing for the others |
| Collection.RequestedOfTemplate | cadvisor/manifest.go:39-73 | a single request for a key of a family without a device element subscribes that key there and nothing elsewhere |
| Collection.IfaceAdvertisedRequested | cadvisor/collector.go:290-297 | requesting the interface templates subscribes the interface keys under iface only |
| Collection.CatalogRequested | cadvisor/collector.go:242-299 | the keys requested for a family over the whole catalog are that family's catalog keys |
| Collection.DiscoverySubscribesEverything | cadvisor/collector.go:242-299 | subscribing to the whole catalog fills every family's list with exactly its catalog keys in map order; load and diskio stay empty |
| Collection.FreshCollectorIsSilent | cadvisor/collector.go:312-318 | a collector with no subscription emits nothing, whatever the containers |
| Collection.IntervalFollowsLatestRequest | cadvisor/collector.go:73-79 | the interval follows the latest request list: 30 s, then back to the 15 s default |
| Collection.SubscribeToCatalog | cadvisor/collector.go:242-299 | discovery followed by a subscription to everything discovered lists every advertised key |
| Collection.OneScalarKey | cadvisor/collector.go:121-134 | a single subscribed key of a family other than fs yields exactly its entry's record |
| Collection.OneIfaceKey | cadvisor/collector.go:149-164 | a single subscribed interface key fans out over the sample's interfaces |
| Collection.NetworkSubscriptions | cadvisor/manifest.go:39-73 | a tcp request followed by an interface request subscribes one key in each of those two lists |
| Collection.IfaceRequestRoutes | cadvisor/manifest.go:56-58 | an interface entry's wildcard request routes to iface and carries its key at element 8 |
| Collection.NetworkScenario | cadvisor/collector.go:120-165 | for a network-only container with two interfaces, the pass emits the tcp record and then the interface record for each interface |
| Collection.NetworkSectionScenario | cadvisor/collector.go:120-165 | the network section of that container is the tcp record followed by the interface record for each interface |
| Collection.EstablishedAndInBytes | cadvisor/collector.go:120-165 | with tcp ESTABLISHED and iface in_bytes, the pass emits three records: the established count, then each interface's received bytes under that interface's name |

## Left out

- **Concurrency and I/O:** the goroutine, the mutex, the channels, `time.Sleep` and the infinite loops of `StreamMetrics` and `buildOrganizer`.
  - One turn of each is modelled: `Collector.Collect` and `Collector.Update`.
  - Because the lock makes the two turns exclusive, they are modelled as sequential calls.
- **The cAdvisor manager:** creating and starting it (`manager.New`, `Start`) and querying it (`GetContainerInfoV2`) are not part of this model.
  - The container list is an input to `Collect`.
  - On a query error the source only logs and goes on with whatever container map it got back, which may be empty or partial. Either is just another input.
  - The source ranges over that Go map, so the container order is unspecified. The input sequence may come in any order, and every property holds for every order.
  - A manager creation or start failure is fatal in the source and is not modelled.
- **Go map iteration order:** `GetMetricTypes` ranges over Go maps, whose order is unspecified. The model fixes source order. The catalog's content and size do not depend on this choice; its order does.
- **Collection.Collector.GetMetricTypes:** the error result, which is always nil, is not returned.
- **Other code:** `GetConfigPolicy`, the `init` flag overrides, logging and `main.go` are not part of this model.
- **Namespace element metadata:** the element names and descriptions of `containerNamespace` and the dynamic device element are not modelled. A namespace is the sequence of element values.
- **Tags:** the `Tags` field of the catalog records is never set and is not modelled.
- **Counter widths:** the uint64 counters of cAdvisor are `nat`. The extractors copy them unchanged, so no wrap-around can arise.
- **Collection.Collector.Collect:** it requires `AllReady`.
  - The fs extractors dereference pointers that may be nil. The source panics when a reported container (one with a sample and the three labels) has filesystem stats, a subscribed fs key, and a nil pointer behind that key.
  - The model excludes exactly that panic by precondition instead of modelling it. Containers that are skipped, and fs keys that are not subscribed, impose nothing.
- **Manifests.Manifest.BuildMetricsList:** it requires a non-empty request list and namespaces long enough for the elements it reads.
  - The source indexes `metrics[0]`, which panics on an empty slice.
  - It reads namespace elements 6, 7 and 8 through `Namespace.Element` of the Snap plugin library, which is not part of this model. What that accessor returns past the end of a namespace is not modelled, so short namespaces are excluded by precondition.
- **Manifests.ResolveInterval:** the 64-bit wrap-around of `time.Second * n` is modelled. The contract states only the non-wrapping cases: the default, and 0 <= n <= 9223372036.
- **Diskio and load:** diskio and load subscriptions are stored but never read by the collection pass, and diskio is never advertised. This matches the code.
- **Log texts:** the logged messages are not modelled. One of them, at cadvisor/collector.go:152, names the tcp6 map for an interface key.
