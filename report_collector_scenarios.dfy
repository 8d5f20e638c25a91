/**
 * The collection scenarios of the reporting client's collector tests, played
 * on the model: a registry, a bucket provider answering 12345, a recording
 * sink and one collection pass; each scenario states the one sink call and the
 * exact table it receives.
 */
module ReportCollectorScenarios {
  import opened Wrappers
  import opened ReportedValues
  import opened ReportedBeanAttributes
  import opened MetricSanitizer
  import opened ReportCollection

  const BUCKET_ID: int := 12345

  /** The node of the tests: application "test-application" (prefix "TestApplication"), versions 1.2 and platform.1. */
  const TestNode: NodeInfo := NodeInfo("TestApplication", "1.2", "platform.1")

  const ExpectedVersionTags: Tags := map["applicationVersion" := "1.2", "platformVersion" := "platform.1"]

  /** The tests' ReportedObject: an int field that its reported getter pre-increments. */
  class ReportedObject {
    var metric: Int32

    constructor ()
      ensures metric == 0
    {
      metric := 0;
    }

    /** getMetric: `++metric`, returning the new value. */
    method GetMetric() returns (r: Int32)
      modifies this
      ensures metric == IncrementInt32(old(metric)) && r == metric
      ensures Returned(Integer(r)) == ReadMetric(ObjectValue(old(metric)))
    {
      metric := IncrementInt32(metric);
      r := metric;
    }
  }

  /** A ReportedObject as a value: its field `metric`. */
  function ObjectValue(metric: Int32): Value
  {
    Instance("ReportedObject", map["metric" := Integer(metric)])
  }

  /** What the getter returns when first invoked on an object in the given state. */
  function ReadMetric(target: Value): Outcome
  {
    if target.Instance? && "metric" in target.fields && target.fields["metric"].Integer? then
      Returned(Integer(IncrementInt32(target.fields["metric"].i)))
    else
      Threw(Fault("no metric field"))
  }

  /** ReportedBean.forTarget(new ReportedObject()): one attribute `Metric`. */
  const ReportedObjectBean: ReportedBean := ReportedBean(ObjectValue(0), [Direct("Metric", ReadMetric)])

  /** The names the ReportedObject's attribute is reported under, with and without the application prefix. */
  lemma ReportedObjectNames()
    ensures "" + "TestObject" + "." + "Metric" == "TestObject.Metric"
    ensures "TestApplication" + "." + "TestObject" + "." + "Metric" == "TestApplication.TestObject.Metric"
  {
  }

  /** The NumMetrics key of the tests' collector. */
  lemma TestNodeNumMetricsKey()
    ensures NumMetricsKey(VersionTags(TestNode)) == MetricKey("ReportCollector.NumMetrics", ExpectedVersionTags)
  {
  }

  /** A fresh ReportedObject's one attribute reads 1 and is keyed `name` with `tags`. */
  lemma ReportedObjectReading(applyApplicationPrefix: bool, tags: Tags, name: string)
    requires name == (if applyApplicationPrefix then "TestApplication.TestObject.Metric" else "TestObject.Metric")
    ensures var reg := Registration(ReportedObjectBean, applyApplicationPrefix, "TestObject", tags);
      && |reg.bean.attributes| == 1
      && Sanitize(GetValue(reg.bean.attributes[0], reg.bean.target)) == Some(IntegerMetric(1))
      && KeyOf(TestNode.applicationPrefix, reg, 0) == MetricKey(name, tags)
  {
    var reg := Registration(ReportedObjectBean, applyApplicationPrefix, "TestObject", tags);
    assert GetValue(reg.bean.attributes[0], reg.bean.target) == Returned(Integer(1));
    ReportedObjectNames();
    assert MetricName(TestNode.applicationPrefix, reg, reg.bean.attributes[0]) == name;
  }

  /** The table of a pass over one fresh ReportedObject reported as `name` with `tags`. */
  lemma ReportedObjectTable(applyApplicationPrefix: bool, tags: Tags, name: string)
    requires name == (if applyApplicationPrefix then "TestApplication.TestObject.Metric" else "TestObject.Metric")
    ensures PassTable(TestNode.applicationPrefix, VersionTags(TestNode),
                      [Registration(ReportedObjectBean, applyApplicationPrefix, "TestObject", tags)]) ==
      map[MetricKey(name, tags) := IntegerMetric(1),
          MetricKey("ReportCollector.NumMetrics", ExpectedVersionTags) := IntegerMetric(1)]
  {
    var reg := Registration(ReportedObjectBean, applyApplicationPrefix, "TestObject", tags);
    ReportedObjectReading(applyApplicationPrefix, tags, name);
    TestNodeNumMetricsKey();
    OneAttributePass(TestNode.applicationPrefix, VersionTags(TestNode), reg);
  }

  /** The collector of the tests over a new registry, provider and sink. */
  method SetUp() returns (provider: MinuteBucketIdProvider, registry: ReportedBeanRegistry,
                          sink: ReportSink, collector: ReportCollector)
    ensures fresh(provider) && fresh(registry) && fresh(sink)
    ensures provider.lastSystemTimeMillis == BUCKET_ID
    ensures registry.registrations == [] && sink.reports == []
    ensures collector.bucketIdProvider == provider && collector.registry == registry && collector.sink == sink
    ensures collector.applicationPrefix == "TestApplication" && collector.versionTags == ExpectedVersionTags
  {
    provider := new MinuteBucketIdProvider(BUCKET_ID);
    registry := new ReportedBeanRegistry();
    sink := new ReportSink();
    collector := new ReportCollector(TestNode, provider, registry, sink);
  }

  /** testCollection: `TestObject.Metric` = 1 with no tags, and NumMetrics = 1. */
  method TestCollection() returns (reports: seq<ReportCall>)
    ensures reports == [ReportCall(BUCKET_ID, map[
      MetricKey("TestObject.Metric", map[]) := IntegerMetric(1),
      MetricKey("ReportCollector.NumMetrics", ExpectedVersionTags) := IntegerMetric(1)])]
  {
    var provider, registry, sink, collector := SetUp();
    registry.Register(ReportedObjectBean, false, "TestObject", map[]);
    ghost var visited := collector.CollectData();
    ReportedObjectTable(false, map[], "TestObject.Metric");
    reports := sink.reports;
  }

  /** testCollectionApplicationPrefix: the name gains the application prefix; the tags are kept. */
  method TestCollectionApplicationPrefix() returns (reports: seq<ReportCall>)
    ensures reports == [ReportCall(BUCKET_ID, map[
      MetricKey("TestApplication.TestObject.Metric", map["foo" := "bar"]) := IntegerMetric(1),
      MetricKey("ReportCollector.NumMetrics", ExpectedVersionTags) := IntegerMetric(1)])]
  {
    var provider, registry, sink, collector := SetUp();
    registry.Register(ReportedObjectBean, true, "TestObject", map["foo" := "bar"]);
    ghost var visited := collector.CollectData();
    ReportedObjectTable(true, map["foo" := "bar"], "TestApplication.TestObject.Metric");
    reports := sink.reports;
  }

  /** testCollectionLegacy: `com.proofpoint.reporting.test:name=TestObject,foo=bar`. */
  method TestCollectionLegacy() returns (reports: seq<ReportCall>)
    ensures reports == [ReportCall(BUCKET_ID, map[
      MetricKey("TestObject.Metric", map["foo" := "bar"]) := IntegerMetric(1),
      MetricKey("ReportCollector.NumMetrics", ExpectedVersionTags) := IntegerMetric(1)])]
  {
    var provider, registry, sink, collector := SetUp();
    var objectName := ObjectName("com.proofpoint.reporting.test", map["name" := "TestObject", "foo" := "bar"]);
    var r := registry.RegisterLegacy(ReportedObjectBean, objectName);
    assert objectName.properties - {"name"} == map["foo" := "bar"];
    ghost var visited := collector.CollectData();
    ReportedObjectTable(false, map["foo" := "bar"], "TestObject.Metric");
    reports := sink.reports;
  }



  /** The registration of testUnreportedValues, over any list of its getters. */
  function UnreportedRegistration(attributes: seq<Attribute>): Registration
  {
    Registration(ReportedBean(Instance("reported", map[]), attributes), false, "TestObject", map[])
  }

  /** The key `TestObject.<name>`, without tags. */
  function TestObjectKey(name: string): MetricKey
  {
    MetricKey("TestObject." + name, map[])
  }

  /** A getter of testUnreportedValues is read as `TestObject.<its name>`. */
  lemma UnreportedReading(attributes: seq<Attribute>, a: Attribute)
    requires a.Direct?
    ensures ReadingOf("TestApplication", UnreportedRegistration(attributes), a) ==
      Reading(TestObjectKey(a.attributeName), Sanitize(a.reader(Instance("reported", map[]))))
  {
    assert "" + "TestObject" + "." + a.attributeName == "TestObject." + a.attributeName;
  }

  lemma SurvivorsOfThree(r0: Reading, r1: Reading, r2: Reading)
    ensures Survivors([r0, r1, r2]) == Kept(r0) + Kept(r1) + Kept(r2)
  {
    assert [r0, r1, r2] == [] + [r0] + [r1] + [r2];
    SurvivorsAppend([], r0);
    SurvivorsAppend([r0], r1);
    SurvivorsAppend([r0, r1], r2);
  }

  const DoubleGetters: seq<Attribute> := [
    Direct("DoubleMetric", _ => Returned(Double(Finite(0.0)))),
    Direct("NanDouble", _ => Returned(Double(NaN))),
    Direct("InfiniteDouble", _ => Returned(Double(NegativeInfinity)))]

  /** What the pass keeps of the double getters. */
  const DoubleKept: seq<(MetricKey, Metric)> := [(TestObjectKey("DoubleMetric"), DoubleMetric(0.0))]

  lemma DoubleGettersKept(attributes: seq<Attribute>)
    ensures Survivors(AttributeReadings("TestApplication", UnreportedRegistration(attributes), DoubleGetters)) == DoubleKept
  {
    var reg := UnreportedRegistration(attributes);
    var rs := AttributeReadings("TestApplication", reg, DoubleGetters);
    UnreportedReading(attributes, DoubleGetters[0]);
    UnreportedReading(attributes, DoubleGetters[1]);
    UnreportedReading(attributes, DoubleGetters[2]);
    assert rs == [rs[0], rs[1], rs[2]];
    SurvivorsOfThree(rs[0], rs[1], rs[2]);
  }

  const FloatGetters: seq<Attribute> := [
    Direct("FloatMetric", _ => Returned(Float(Finite(0.0)))),
    Direct("NanFloat", _ => Returned(Float(NaN))),
    Direct("InfiniteFloat", _ => Returned(Float(PositiveInfinity)))]

  /** What the pass keeps of the float getters. */
  const FloatKept: seq<(MetricKey, Metric)> := [(TestObjectKey("FloatMetric"), FloatMetric(0.0))]

  lemma FloatGettersKept(attributes: seq<Attribute>)
    ensures Survivors(AttributeReadings("TestApplication", UnreportedRegistration(attributes), FloatGetters)) == FloatKept
  {
    var reg := UnreportedRegistration(attributes);
    var rs := AttributeReadings("TestApplication", reg, FloatGetters);
    UnreportedReading(attributes, FloatGetters[0]);
    UnreportedReading(attributes, FloatGetters[1]);
    UnreportedReading(attributes, FloatGetters[2]);
    assert rs == [rs[0], rs[1], rs[2]];
    SurvivorsOfThree(rs[0], rs[1], rs[2]);
  }

  const LongGetters: seq<Attribute> := [
    Direct("LongMetric", _ => Returned(Long(0))),
    Direct("MaxLongMetric", _ => Returned(Long(LONG_MAX))),
    Direct("MinLongMetric", _ => Returned(Long(LONG_MIN)))]

  /** What the pass keeps of the long getters. */
  const LongKept: seq<(MetricKey, Metric)> := [(TestObjectKey("LongMetric"), LongMetric(0))]

  lemma LongGettersKept(attributes: seq<Attribute>)
    ensures Survivors(AttributeReadings("TestApplication", UnreportedRegistration(attributes), LongGetters)) == LongKept
  {
    var reg := UnreportedRegistration(attributes);
    var rs := AttributeReadings("TestApplication", reg, LongGetters);
    UnreportedReading(attributes, LongGetters[0]);
    UnreportedReading(attributes, LongGetters[1]);
    UnreportedReading(attributes, LongGetters[2]);
    assert rs == [rs[0], rs[1], rs[2]];
    SurvivorsOfThree(rs[0], rs[1], rs[2]);
  }

  const IntegerGetters: seq<Attribute> := [
    Direct("IntegerMetric", _ => Returned(Integer(0))),
    Direct("MaxIntegerMetric", _ => Returned(Integer(INT_MAX))),
    Direct("MinIntegerMetric", _ => Returned(Integer(INT_MIN)))]

  /** What the pass keeps of the integer getters. */
  const IntegerKept: seq<(MetricKey, Metric)> := [(TestObjectKey("IntegerMetric"), IntegerMetric(0))]

  lemma IntegerGettersKept(attributes: seq<Attribute>)
    ensures Survivors(AttributeReadings("TestApplication", UnreportedRegistration(attributes), IntegerGetters)) == IntegerKept
  {
    var reg := UnreportedRegistration(attributes);
    var rs := AttributeReadings("TestApplication", reg, IntegerGetters);
    UnreportedReading(attributes, IntegerGetters[0]);
    UnreportedReading(attributes, IntegerGetters[1]);
    UnreportedReading(attributes, IntegerGetters[2]);
    assert rs == [rs[0], rs[1], rs[2]];
    SurvivorsOfThree(rs[0], rs[1], rs[2]);
  }

  const ShortGetters: seq<Attribute> := [
    Direct("ShortMetric", _ => Returned(Short(0))),
    Direct("MaxShortMetric", _ => Returned(Short(SHORT_MAX))),
    Direct("MinShortMetric", _ => Returned(Short(SHORT_MIN)))]

  /** What the pass keeps of the short getters. */
  const ShortKept: seq<(MetricKey, Metric)> := [(TestObjectKey("ShortMetric"), ShortMetric(0))]

  lemma ShortGettersKept(attributes: seq<Attribute>)
    ensures Survivors(AttributeReadings("TestApplication", UnreportedRegistration(attributes), ShortGetters)) == ShortKept
  {
    var reg := UnreportedRegistration(attributes);
    var rs := AttributeReadings("TestApplication", reg, ShortGetters);
    UnreportedReading(attributes, ShortGetters[0]);
    UnreportedReading(attributes, ShortGetters[1]);
    UnreportedReading(attributes, ShortGetters[2]);
    assert rs == [rs[0], rs[1], rs[2]];
    SurvivorsOfThree(rs[0], rs[1], rs[2]);
  }

  const ByteGetters: seq<Attribute> := [
    Direct("ByteMetric", _ => Returned(Byte(0))),
    Direct("MaxByteMetric", _ => Returned(Byte(BYTE_MAX))),
    Direct("MinByteMetric", _ => Returned(Byte(BYTE_MIN)))]

  /** What the pass keeps of the byte getters. */
  const ByteKept: seq<(MetricKey, Metric)> := [(TestObjectKey("ByteMetric"), ByteMetric(0)), (TestObjectKey("MaxByteMetric"), ByteMetric(BYTE_MAX)), (TestObjectKey("MinByteMetric"), ByteMetric(BYTE_MIN))]

  lemma ByteGettersKept(attributes: seq<Attribute>)
    ensures Survivors(AttributeReadings("TestApplication", UnreportedRegistration(attributes), ByteGetters)) == ByteKept
  {
    var reg := UnreportedRegistration(attributes);
    var rs := AttributeReadings("TestApplication", reg, ByteGetters);
    UnreportedReading(attributes, ByteGetters[0]);
    UnreportedReading(attributes, ByteGetters[1]);
    UnreportedReading(attributes, ByteGetters[2]);
    assert rs == [rs[0], rs[1], rs[2]];
    SurvivorsOfThree(rs[0], rs[1], rs[2]);
  }

  const BooleanGetters: seq<Attribute> := [
    Direct("FalseBooleanMetric", _ => Returned(Bool(false))),
    Direct("TrueBooleanMetric", _ => Returned(Bool(true))),
    Direct("NullBooleanMetric", _ => Returned(Null))]

  /** What the pass keeps of the boolean getters. */
  const BooleanKept: seq<(MetricKey, Metric)> := [(TestObjectKey("FalseBooleanMetric"), IntegerMetric(0)), (TestObjectKey("TrueBooleanMetric"), IntegerMetric(1))]

  lemma BooleanGettersKept(attributes: seq<Attribute>)
    ensures Survivors(AttributeReadings("TestApplication", UnreportedRegistration(attributes), BooleanGetters)) == BooleanKept
  {
    var reg := UnreportedRegistration(attributes);
    var rs := AttributeReadings("TestApplication", reg, BooleanGetters);
    UnreportedReading(attributes, BooleanGetters[0]);
    UnreportedReading(attributes, BooleanGetters[1]);
    UnreportedReading(attributes, BooleanGetters[2]);
    assert rs == [rs[0], rs[1], rs[2]];
    SurvivorsOfThree(rs[0], rs[1], rs[2]);
  }

  const ObjectGetters: seq<Attribute> := [
    Direct("TestingValueMetric", _ => Returned(Instance("testing toString value", map[]))),
    Direct("NullMetric", _ => Returned(Null)),
    Direct("ExceptionMetric", _ => Threw(Fault("UnsupportedOperationException")))]

  /** What the pass keeps of the object getters. */
  const ObjectKept: seq<(MetricKey, Metric)> := [(TestObjectKey("TestingValueMetric"), TextMetric("testing toString value"))]

  lemma ObjectGettersKept(attributes: seq<Attribute>)
    ensures Survivors(AttributeReadings("TestApplication", UnreportedRegistration(attributes), ObjectGetters)) == ObjectKept
  {
    var reg := UnreportedRegistration(attributes);
    var rs := AttributeReadings("TestApplication", reg, ObjectGetters);
    UnreportedReading(attributes, ObjectGetters[0]);
    UnreportedReading(attributes, ObjectGetters[1]);
    UnreportedReading(attributes, ObjectGetters[2]);
    assert rs == [rs[0], rs[1], rs[2]];
    SurvivorsOfThree(rs[0], rs[1], rs[2]);
  }

  /** The getters of testUnreportedValues' object, in declaration order. */
  const UnreportedGetters: seq<Attribute> :=
    DoubleGetters + FloatGetters + LongGetters + IntegerGetters + ShortGetters + ByteGetters + BooleanGetters + ObjectGetters

  /** The puts of the test's expected ImmutableTable, in order: the kept values, then NumMetrics. */
  const UnreportedPuts: seq<(MetricKey, Metric)> :=
    DoubleKept + FloatKept + LongKept + IntegerKept + ShortKept + ByteKept + BooleanKept + ObjectKept +
    [(MetricKey("ReportCollector.NumMetrics", ExpectedVersionTags), IntegerMetric(11))]

  /**
   * testUnreportedValues: NaN, infinities, long/int/short sentinels, nulls and the
   * throwing getter are left out; zeros of every width, the byte extremes, the
   * booleans as 0 and 1 and the object's text are kept; NumMetrics is 11.
   */
  lemma UnreportedValuesTable()
    ensures PassTable(TestNode.applicationPrefix, VersionTags(TestNode), [UnreportedRegistration(UnreportedGetters)]) ==
      Tabulate(UnreportedPuts)
  {
    var reg := UnreportedRegistration(UnreportedGetters);
    SingleRegistrationReadings("TestApplication", reg);
    AttributeReadingsConcat("TestApplication", reg, DoubleGetters, FloatGetters);
    AttributeReadingsConcat("TestApplication", reg, DoubleGetters + FloatGetters, LongGetters);
    AttributeReadingsConcat("TestApplication", reg, DoubleGetters + FloatGetters + LongGetters, IntegerGetters);
    AttributeReadingsConcat("TestApplication", reg, DoubleGetters + FloatGetters + LongGetters + IntegerGetters, ShortGetters);
    AttributeReadingsConcat("TestApplication", reg, DoubleGetters + FloatGetters + LongGetters + IntegerGetters + ShortGetters, ByteGetters);
    AttributeReadingsConcat("TestApplication", reg, DoubleGetters + FloatGetters + LongGetters + IntegerGetters + ShortGetters + ByteGetters, BooleanGetters);
    AttributeReadingsConcat("TestApplication", reg, DoubleGetters + FloatGetters + LongGetters + IntegerGetters + ShortGetters + ByteGetters + BooleanGetters, ObjectGetters);
    var d := AttributeReadings("TestApplication", reg, DoubleGetters);
    var f := AttributeReadings("TestApplication", reg, FloatGetters);
    var l := AttributeReadings("TestApplication", reg, LongGetters);
    var i := AttributeReadings("TestApplication", reg, IntegerGetters);
    var sh := AttributeReadings("TestApplication", reg, ShortGetters);
    var b := AttributeReadings("TestApplication", reg, ByteGetters);
    var bo := AttributeReadings("TestApplication", reg, BooleanGetters);
    var o := AttributeReadings("TestApplication", reg, ObjectGetters);
    SurvivorsConcat(d, f);
    SurvivorsConcat(d + f, l);
    SurvivorsConcat(d + f + l, i);
    SurvivorsConcat(d + f + l + i, sh);
    SurvivorsConcat(d + f + l + i + sh, b);
    SurvivorsConcat(d + f + l + i + sh + b, bo);
    SurvivorsConcat(d + f + l + i + sh + b + bo, o);
    DoubleGettersKept(UnreportedGetters);
    FloatGettersKept(UnreportedGetters);
    LongGettersKept(UnreportedGetters);
    IntegerGettersKept(UnreportedGetters);
    ShortGettersKept(UnreportedGetters);
    ByteGettersKept(UnreportedGetters);
    BooleanGettersKept(UnreportedGetters);
    ObjectGettersKept(UnreportedGetters);
    var kept := Survivors(PassReadings("TestApplication", [reg]));
    assert |kept| == 11;
    TabulateAppend(kept, (MetricKey("ReportCollector.NumMetrics", ExpectedVersionTags), IntegerMetric(11)));
  }

  /** testUnreportedValues, played through the collector. */
  method TestUnreportedValues() returns (reports: seq<ReportCall>)
    ensures reports == [ReportCall(BUCKET_ID, Tabulate(UnreportedPuts))]
  {
    var provider, registry, sink, collector := SetUp();
    registry.Register(UnreportedRegistration(UnreportedGetters).bean, false, "TestObject", map[]);
    ghost var visited := collector.CollectData();
    UnreportedValuesTable();
    reports := sink.reports;
  }
}
