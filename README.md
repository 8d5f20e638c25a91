# Reporting, data-source statistics and server URIs, modelled in Dafny

This project models four pieces of the platform libraries:

- **The reporting client's collection pass.** `ReportCollector.collectData()` produces one report per pass. The model follows what `TestReportCollector` pins down:
  - A `ReportedBeanRegistry` holds registrations. Each has a bean, an "apply application prefix" flag, a name prefix and tags. A legacy registration by JMX `ObjectName` turns the `name` key property into the prefix and the other key properties into tags.
  - One pass reads the bucket id once from the `MinuteBucketIdProvider`.
  - It reads every attribute of every registration once, in order.
  - It sanitizes each value. Faults, null, NaN, the infinities and the MIN/MAX sentinels of long, int and short are dropped. Booleans become 1/0. Numbers keep their width. Any other object is reported by its text.
  - It puts each kept value under `(prefix + "." + attribute name, tags)`.
  - It adds `ReportCollector.NumMetrics`, the count of kept values, under the `applicationVersion` and `platformVersion` tags.
  - It calls the sink exactly once with the bucket id and the table.

  The pass is a class method with a nested loop. It is proved against a specification function (`PassTable`), and lemmas state what that table holds. The four tests are played on the model, each ending with the exact table the sink receives.
- **`NestedReportedBeanAttribute`.** It builds the dotted name `prefix.delegateName` once. `getValue` applies the nested getter to a non-null target and hands the result, or null, to the delegate. Lemmas cover:
  - the value;
  - the invocations made;
  - how nesting composes along a path.
- **`ManagedDataSourceStats`.** This is a class with three timers and two `AtomicLong` error counters. Each package-private recorder changes exactly one component. A replay function ties any sequence of recorder calls to the timers' contents and the counters' values.
- **`HttpServerInfo`.** The constructor is a decision table from the enable flags to which of the five URIs exist, with which scheme, host and port. `buildUri` replaces port 0 by an unused port. That port is a parameter of the model, one per call site.

Files:

| file | contents |
|---|---|
| `values.dfy` | Option/Result, and Java's values, widths and outcomes (value or fault) |
| `nested_attribute.dfy` | attributes, `NestedReportedBeanAttribute` |
| `sanitize.dfy` | the sanitization rule |
| `report_collector.dfy` | registry, bucket provider, sink, collector, and the pass specification with its lemmas |
| `report_collector_scenarios.dfy` | the `TestReportCollector` scenarios |
| `data_source_stats.dfy` | `ManagedDataSourceStats` |
| `http_server_info.dfy` | `HttpServerInfo` |

The scenario `testUnreportedValues` declares 24 reported getters: eight groups of three. Of these, 11 survive, and NumMetrics is 11.

## Model

| member | source | states |
|---|---|---|
| ReportedBeanAttributes.NestedAttribute | reporting/src/main/java/com/proofpoint/reporting/NestedReportedBeanAttribute.java:30-35 | the built attribute keeps the nested getter and the delegate, its name is exactly `prefix + "." + delegate name`, and it is one nesting level deeper than the delegate |
| ReportedBeanAttributes.Name | reporting/src/main/java/com/proofpoint/reporting/NestedReportedBeanAttribute.java:37-41 | getName: the name stored when the attribute was built (for a nested attribute, the one `NestedAttribute` computes); an attribute is a value, so the name never changes |
| ReportedBeanAttributes.GetValue | reporting/src/main/java/com/proofpoint/reporting/NestedReportedBeanAttribute.java:43-51 | getValue; its contract states that a null target reaches the leaf reader as null through any chain of nesting; `NestedValue`, `Trace` and `NestAlongValue` state the rest |
| ReportedBeanAttributes.NestedValue | reporting/src/main/java/com/proofpoint/reporting/NestedReportedBeanAttribute.java:43-51 | non-null target: the value is the delegate's value on what the nested getter returned, or the getter's fault when it throws; null target: the delegate reads null |
| ReportedBeanAttributes.Trace | reporting/src/main/java/com/proofpoint/reporting/NestedReportedBeanAttribute.java:43-51 | the invocations of one read: getter calls on strictly increasing levels and then at most one reader call; none past the nesting depth; a null target reaches only the leaf reader, with null; a trace that ends on a getter call means the read threw; one that ends on the reader means the read's value is the leaf's value |
| ReportedBeanAttributes.NestedInvocations | reporting/src/main/java/com/proofpoint/reporting/NestedReportedBeanAttribute.java:47-50 | null target: the nested getter is not invoked and the delegate receives null; non-null target: the getter is invoked exactly once, first; if it throws, nothing else is invoked |
| ReportedBeanAttributes.NestAlongName | reporting/src/main/java/com/proofpoint/reporting/NestedReportedBeanAttribute.java:34 | nesting along a path of prefixes yields the dotted name `p1.p2. ... .name` |
| ReportedBeanAttributes.NestAlongValue | reporting/src/main/java/com/proofpoint/reporting/NestedReportedBeanAttribute.java:47-50 | reading a nested chain is following its getters in order, stopping at the first fault, and then reading the leaf |
| ReportedBeanAttributes.FollowNull | reporting/src/main/java/com/proofpoint/reporting/NestedReportedBeanAttribute.java:47 | a null target passes down the whole chain without invoking any getter |
| ReportedBeanAttributes.NestingTwice | reporting/src/main/java/com/proofpoint/reporting/NestedReportedBeanAttribute.java:30-51 | a nested attribute wrapping another has the name `p1.p2.name` and the value of the leaf on the composition of both getters |
| MetricSanitizer.Sanitize | reporting-client/src/test/java/com/proofpoint/reporting/TestReportCollector.java:116-282 | a value is dropped exactly when the getter threw or it is null, NaN, infinite or a long/int/short MIN/MAX sentinel; booleans become the int 1/0; bytes, including their extremes, are kept; other objects become their text |
| MetricSanitizer.NumbersKeepRepresentation | reporting-client/src/test/java/com/proofpoint/reporting/TestReportCollector.java:268-279 | every kept number has its own width and value, and every reported number reads back as the returned number (or a boolean's 0/1) |
| MetricSanitizer.WrapInt32 | reporting-client/src/test/java/com/proofpoint/reporting/TestReportCollector.java:280 | NumMetrics as a Java int: equal to the count while the count fits in an int |
| ReportCollection.MetricName | reporting-client/src/test/java/com/proofpoint/reporting/TestReportCollector.java:68-80 | without the flag the name is `prefix + "." + attribute name`; with it, the application prefix and a dot come in front of that name |
| ReportCollection.PassTable | reporting-client/src/test/java/com/proofpoint/reporting/TestReportCollector.java:93-107 | the table one pass hands the sink; it always holds NumMetrics; `PassReportsAttribute`, `TableCellsComeFromAttributes` and `NumMetricsCountsCells` state its cells |
| ReportCollection.LegacyRegistration | reporting-client/src/test/java/com/proofpoint/reporting/TestReportCollector.java:87-90 | a legacy ObjectName registers exactly when it has a `name` key property; that property is the prefix, the other key properties are the tags with their values, and no application prefix applies |
| ReportCollection.ReportedBeanRegistry.Register | reporting-client/src/test/java/com/proofpoint/reporting/TestReportCollector.java:68 | the registration is appended with the given bean, flag, prefix and tags |
| ReportCollection.ReportedBeanRegistry.RegisterLegacy | reporting-client/src/test/java/com/proofpoint/reporting/TestReportCollector.java:88 | appends the legacy registration when the name property exists, and otherwise reports the error and leaves the registry unchanged |
| ReportCollection.VersionTags | reporting-client/src/test/java/com/proofpoint/reporting/TestReportCollector.java:42 | the NumMetrics tags are exactly `applicationVersion` and `platformVersion`, with the node's versions |
| ReportCollection.PositionsExactlyOnce | reporting-client/src/test/java/com/proofpoint/reporting/TestReportCollector.java:294-303 | the read log of a pass (one entry per getValue, recorded by `CollectAttribute`) names every (registration, attribute) position, each exactly once, as many as there are attributes |
| ReportCollection.PassReadsEveryAttribute | reporting-client/src/test/java/com/proofpoint/reporting/TestReportCollector.java:255-262 | every attribute of every registration is read in the pass, whatever its siblings returned or threw |
| ReportCollection.PassReportsAttribute | reporting-client/src/test/java/com/proofpoint/reporting/TestReportCollector.java:262-282 | with distinct keys, an attribute's `(name, tags)` key is in the table exactly when its sanitized value was kept, and then it holds that value |
| ReportCollection.TableCellsComeFromAttributes | reporting-client/src/test/java/com/proofpoint/reporting/TestReportCollector.java:101-106 | every cell is NumMetrics or holds the sanitized value of some attribute of some registration, under that attribute's key and that registration's tags |
| ReportCollection.NumMetricsCountsCells | reporting-client/src/test/java/com/proofpoint/reporting/TestReportCollector.java:268-282 | with distinct keys, NumMetrics is present and equals the number of the other cells |
| ReportCollection.OneAttributePass | reporting-client/src/test/java/com/proofpoint/reporting/TestReportCollector.java:101-106 | a registration with one attribute yields exactly its key with its value and NumMetrics 1 (or NumMetrics 0 when the value is dropped) |
| ReportCollection.MinuteBucketIdProvider.GetLastSystemTimeMillis | reporting-client/src/test/java/com/proofpoint/reporting/TestReportCollector.java:95 | returns the provider's current bucket id |
| ReportCollection.ReportSink.Report | reporting-client/src/test/java/com/proofpoint/reporting/TestReportCollector.java:98-99 | records exactly one call with the bucket id and table |
| ReportCollection.ReportCollector.constructor | reporting-client/src/test/java/com/proofpoint/reporting/TestReportCollector.java:59-60 | takes the application prefix and version tags from the node, and keeps the provider, registry and sink |
| ReportCollection.ReportCollector.CollectAttribute | reporting-client/src/test/java/com/proofpoint/reporting/TestReportCollector.java:268-282 | after reading one more attribute (one getValue, logged as its position), the table and count are those of the readings so far |
| ReportCollection.ReportCollector.CollectRegistration | reporting-client/src/test/java/com/proofpoint/reporting/TestReportCollector.java:260-262 | reading all attributes of one registration extends the pass's table, count and visited positions by exactly that registration |
| ReportCollection.ReportCollector.CollectData | reporting-client/src/test/java/com/proofpoint/reporting/TestReportCollector.java:93-107 | the sink gets exactly one more call, with the provider's bucket id and the pass table of the current registrations; its read log lists the positions read, in registration and attribute order |
| ReportCollectorScenarios.ReportedObject.constructor | reporting-client/src/test/java/com/proofpoint/reporting/TestReportCollector.java:294-296 | a new ReportedObject's `metric` is 0 |
| ReportCollectorScenarios.ReportedObject.GetMetric | reporting-client/src/test/java/com/proofpoint/reporting/TestReportCollector.java:294-303 | `++metric`: the field and the result are the old value plus one (int wrap-around), which is what the model's reader returns on the old state |
| ReportCollectorScenarios.ReportedObjectTable | reporting-client/src/test/java/com/proofpoint/reporting/TestReportCollector.java:101-106 | a fresh ReportedObject yields exactly its metric = 1 under its name and tags, and NumMetrics = 1 under the version tags |
| ReportCollectorScenarios.SetUp | reporting-client/src/test/java/com/proofpoint/reporting/TestReportCollector.java:52-61 | a fresh empty registry and sink, a provider answering 12345, and a collector with prefix `TestApplication` and the expected version tags |
| ReportCollectorScenarios.TestCollection | reporting-client/src/test/java/com/proofpoint/reporting/TestReportCollector.java:63-71 | exactly one sink call: 12345 with `TestObject.Metric` = 1 (no tags) and NumMetrics = 1 |
| ReportCollectorScenarios.TestCollectionApplicationPrefix | reporting-client/src/test/java/com/proofpoint/reporting/TestReportCollector.java:73-81 | exactly one sink call: `TestApplication.TestObject.Metric` = 1 with `foo=bar`, and NumMetrics = 1 |
| ReportCollectorScenarios.TestCollectionLegacy | reporting-client/src/test/java/com/proofpoint/reporting/TestReportCollector.java:83-91 | exactly one sink call: `TestObject.Metric` = 1 with `foo=bar`, and NumMetrics = 1 |
| ReportCollectorScenarios.UnreportedValuesTable | reporting-client/src/test/java/com/proofpoint/reporting/TestReportCollector.java:109-283 | the pass table of the 24 getters is exactly the 11 kept cells of the expected table plus NumMetrics = 11 |
| ReportCollectorScenarios.TestUnreportedValues | reporting-client/src/test/java/com/proofpoint/reporting/TestReportCollector.java:109-283 | exactly one sink call: 12345 with the expected table |
| DataSourceStats.Apply | dbpool/src/main/java/com/proofpoint/dbpool/ManagedDataSourceStats.java:66-89 | the transition of one recorder call; `ApplyChangesOneComponent` and `CountersNeverDecrease` state what it changes, and the recorder methods are proved to perform it |
| DataSourceStats.Replay | dbpool/src/main/java/com/proofpoint/dbpool/ManagedDataSourceStats.java:27-89 | the state after a sequence of recorder calls on a fresh object; `ReplayTimers`, `ReplayCounters` and `CountersCountErrors` state its contents |
| DataSourceStats.WrapInt64 | dbpool/src/main/java/com/proofpoint/dbpool/ManagedDataSourceStats.java:30-31 | a count read as a Java long equals the count while it fits |
| DataSourceStats.WrapInt64Step | dbpool/src/main/java/com/proofpoint/dbpool/ManagedDataSourceStats.java:81-89 | one more event is one `incrementAndGet` on the long reading |
| DataSourceStats.ApplyChangesOneComponent | dbpool/src/main/java/com/proofpoint/dbpool/ManagedDataSourceStats.java:66-89 | each recorder appends to its own timer or adds one to its own counter; every other component is unchanged |
| DataSourceStats.CountersNeverDecrease | dbpool/src/main/java/com/proofpoint/dbpool/ManagedDataSourceStats.java:81-89 | below Long.MAX_VALUE no recorder decreases a counter, and together the counters grow by at most one |
| DataSourceStats.ReplayTimers | dbpool/src/main/java/com/proofpoint/dbpool/ManagedDataSourceStats.java:66-79 | after any sequence of calls, each timer holds exactly the durations of its own kind of call, in order |
| DataSourceStats.ReplayCounters | dbpool/src/main/java/com/proofpoint/dbpool/ManagedDataSourceStats.java:81-89 | after any sequence of calls, each counter is the number of its own kind of error, read as a Java long |
| DataSourceStats.CountersCountErrors | dbpool/src/main/java/com/proofpoint/dbpool/ManagedDataSourceStats.java:30-31 | counters start at 0 and, short of 2^63 errors, equal the number of errors recorded |
| DataSourceStats.TimerStat.AddValue | dbpool/src/main/java/com/proofpoint/dbpool/ManagedDataSourceStats.java:68 | the duration is appended to the timer's values |
| DataSourceStats.ManagedDataSourceStats.constructor | dbpool/src/main/java/com/proofpoint/dbpool/ManagedDataSourceStats.java:27-31 | three fresh, distinct, empty timers and both counters 0 |
| DataSourceStats.ManagedDataSourceStats.GetCheckout | dbpool/src/main/java/com/proofpoint/dbpool/ManagedDataSourceStats.java:33-38 | always the same `checkout` timer object |
| DataSourceStats.ManagedDataSourceStats.GetCreate | dbpool/src/main/java/com/proofpoint/dbpool/ManagedDataSourceStats.java:40-45 | always the same `create` timer object |
| DataSourceStats.ManagedDataSourceStats.GetHeld | dbpool/src/main/java/com/proofpoint/dbpool/ManagedDataSourceStats.java:47-52 | always the same `held` timer object |
| DataSourceStats.ManagedDataSourceStats.GetConnectionErrorCount | dbpool/src/main/java/com/proofpoint/dbpool/ManagedDataSourceStats.java:54-58 | the current counter value; nothing changes |
| DataSourceStats.ManagedDataSourceStats.GetCreationErrorCount | dbpool/src/main/java/com/proofpoint/dbpool/ManagedDataSourceStats.java:60-64 | the current counter value; nothing changes |
| DataSourceStats.ManagedDataSourceStats.ConnectionCheckedOut | dbpool/src/main/java/com/proofpoint/dbpool/ManagedDataSourceStats.java:66-69 | the new state is the old one with the duration appended to `checkout` only |
| DataSourceStats.ManagedDataSourceStats.ConnectionCreated | dbpool/src/main/java/com/proofpoint/dbpool/ManagedDataSourceStats.java:71-74 | the new state is the old one with the duration appended to `create` only |
| DataSourceStats.ManagedDataSourceStats.ConnectionReturned | dbpool/src/main/java/com/proofpoint/dbpool/ManagedDataSourceStats.java:76-79 | the new state is the old one with the duration appended to `held` only |
| DataSourceStats.ManagedDataSourceStats.CreationErrorOccurred | dbpool/src/main/java/com/proofpoint/dbpool/ManagedDataSourceStats.java:81-84 | the new state is the old one with `creationErrorCount` incremented only |
| DataSourceStats.ManagedDataSourceStats.ConnectionErrorOccurred | dbpool/src/main/java/com/proofpoint/dbpool/ManagedDataSourceStats.java:86-89 | the new state is the old one with `connectionErrorCount` incremented only |
| HttpServer.BuildUri | http-server/src/main/java/com/proofpoint/http/server/HttpServerInfo.java:104-117 | the given scheme and host; a non-zero port as given; port 0 replaced by the unused port; never port 0 |
| HttpServer.NewHttpServerInfo | http-server/src/main/java/com/proofpoint/http/server/HttpServerInfo.java:38-72 | the full decision table (details below) |
| HttpServer.NoUriHasPortZero | http-server/src/main/java/com/proofpoint/http/server/HttpServerInfo.java:104-109 | no URI that exists has port 0 |
| HttpServer.ExternalUrisChooseNoPort | http-server/src/main/java/com/proofpoint/http/server/HttpServerInfo.java:41-65 | the external URIs reuse the internal URIs' resolved ports, so the result does not depend on any port chosen for them |
| HttpServer.ConfiguredPortsAreKept | http-server/src/main/java/com/proofpoint/http/server/HttpServerInfo.java:106-109 | a non-zero configured port appears unchanged in the URIs built from it, including the external HTTP and admin URIs that reuse it |

The decision table that `HttpServer.NewHttpServerInfo` states:

- The HTTP URIs exist exactly when HTTP is enabled. Both use `http`, the internal IP or the external address respectively, and share one resolved port.
- The HTTPS URI exists exactly when HTTPS is enabled. It uses `https` on the internal hostname.
- The admin URI exists exactly when admin is enabled:
  - with HTTPS enabled, it uses `https` on the internal hostname;
  - otherwise it uses `http` on the internal IP.
- The external admin URI exists exactly when admin is enabled and HTTPS is not. Its port is the admin URI's port.

## Left out

- `ReportCollector`, `ReportedBeanRegistry`, `ReportedBean` and `MinuteBucketIdProvider` are not part of this model as code. Their behaviour is modelled from what `TestReportCollector` asserts about them.
- Registry `unregister`, and the registered object argument that keys it: no modelled operation uses them.
- Reflection: `@Reported` discovery and `ReportedBean.forTarget`. A bean is given as its target value and its list of attributes. Method invocation through reflection is modelled as a given function from value to value-or-fault.
- How the application name `test-application` becomes the prefix `TestApplication`: that conversion is not part of this model. The prefix is a field of the node.
- "Read exactly once" is a property of the pass's read log: `CollectAttribute` logs each position when it calls getValue. Readers are pure, so a second read would not change a value in the model.
- The ReportedObject's write-back. The model's attribute readers do not change their target, so `++metric` in a read is not written back during a pass. `GetMetric` states the class's in-place update. Its result on a fresh object agrees with the reader the pass uses, which is all a single pass observes.
- ReportCollection.Tabulate: a later put replaces an earlier one with the same key. This is a choice of the model, because the collector's code is not part of this model. The table builder in the tests, `ImmutableTable.builder()` (lines 102 and 268), rejects a duplicate cell instead. `Tabulate(UnreportedPuts)` stands for that builder only because the keys of those puts are distinct. The lemmas about the pass table assume distinct keys (`UniqueKeys`).
- ReportCollection.LegacyRegistration: an ObjectName without a `name` key property yields an error and no registration. The source does not show this case, so the error is a choice of the model.
- MetricSanitizer.WrapInt32: NumMetrics wraps as a Java int. It is equal to the count below 2^31 entries.
- IEEE floating point: double and float values are classified as finite (a real), NaN, or plus or minus infinity. No float arithmetic takes place.
- Concurrency: registration racing a pass, and the thread safety of `AtomicLong`. Everything is sequential.
- `TimerStat` internals, which are not part of this model: a timer is the sequence of durations recorded into it.
- DataSourceStats.CountersNeverDecrease: stated only below Long.MAX_VALUE, because `incrementAndGet` wraps to Long.MIN_VALUE there, and the model wraps too.
- DataSourceStats.ManagedDataSourceStats: the `@Managed`/`@Nested` export annotations are not modelled.
- `HttpServerInfo.findUnusedPort` binds a socket, which is I/O. The port it would return at each of the five `buildUri` call sites is a parameter in 1..65535. Its `IOException` is not modelled.
- `java.net.URI` construction and its `URISyntaxException`, and `InetAddresses.toUriString` formatting: a URI is a (scheme, host, port) record and the internal IP is given already formatted.
- The getters of `HttpServerInfo` (lines 74-102) return the constructor's fields unchanged. In the model they are the fields of the `HttpServerInfo` datatype.
- The admin-service log line of `HttpServerInfo` (line 66): logging is output only.
- `concurrent/src/main/java/com/proofpoint/concurrent/MoreFutures.java` is not part of this model. It is asynchronous future bridging over library futures.
- `http-server/src/test/java/com/proofpoint/http/server/testing/TestTestingHttpServer.java` is not part of this model. It starts real servers and makes network calls.
