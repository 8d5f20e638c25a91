/**
 * The collection pass of the reporting client: a registry of reported beans,
 * a bucket-id provider, a sink, and the collector whose collectData() reads
 * the bucket id once, reads every attribute of every registration once,
 * sanitizes each value, keys it by (prefix + "." + attribute name, tags),
 * adds ReportCollector.NumMetrics and calls the sink once.
 */
module ReportCollection {
  import opened Wrappers
  import opened ReportedValues
  import opened ReportedBeanAttributes
  import opened MetricSanitizer

  type Tags = map<string, string>

  /** ReportedBean.forTarget: the target and the attributes discovered on it. */
  datatype ReportedBean = ReportedBean(target: Value, attributes: seq<Attribute>)

  /** One entry of the registry. */
  datatype Registration = Registration(
    bean: ReportedBean,
    applyApplicationPrefix: bool,
    namePrefix: string,
    tags: Tags)

  /** A legacy JMX identifier: its domain and its key property list. */
  datatype ObjectName = ObjectName(domain: string, properties: Tags)

  datatype RegistrationError = MissingNameProperty

  /**
   * The registration a legacy ObjectName stands for: the `name` key property is
   * the name prefix, every other key property is a tag, and no application
   * prefix is applied.
   */
  function LegacyRegistration(bean: ReportedBean, objectName: ObjectName): (r: Result<Registration, RegistrationError>)
    ensures r.Ok? <==> "name" in objectName.properties
    ensures r.Ok? ==>
      && r.value.bean == bean
      && !r.value.applyApplicationPrefix
      && r.value.namePrefix == objectName.properties["name"]
      && (forall k :: k in r.value.tags <==> k in objectName.properties && k != "name")
      && (forall k :: k in r.value.tags ==> r.value.tags[k] == objectName.properties[k])
  {
    if "name" in objectName.properties then
      Ok(Registration(bean, false, objectName.properties["name"], objectName.properties - {"name"}))
    else
      Err(MissingNameProperty)
  }

  class ReportedBeanRegistry {
    var registrations: seq<Registration>

    constructor ()
      ensures registrations == []
    {
      registrations := [];
    }

    /** register(object, bean, applyApplicationPrefix, namePrefix, tags) */
    method Register(bean: ReportedBean, applyApplicationPrefix: bool, namePrefix: string, tags: Tags)
      modifies this
      ensures registrations == old(registrations) + [Registration(bean, applyApplicationPrefix, namePrefix, tags)]
    {
      registrations := registrations + [Registration(bean, applyApplicationPrefix, namePrefix, tags)];
    }

    /** register(bean, objectName): the legacy overload. */
    method RegisterLegacy(bean: ReportedBean, objectName: ObjectName) returns (r: Result<(), RegistrationError>)
      modifies this
      ensures r.Ok? <==> "name" in objectName.properties
      ensures r.Ok? ==> registrations == old(registrations) + [LegacyRegistration(bean, objectName).value]
      ensures r.Err? ==> registrations == old(registrations)
    {
      var legacy := LegacyRegistration(bean, objectName);
      if legacy.Ok? {
        registrations := registrations + [legacy.value];
        r := Ok(());
      } else {
        r := Err(legacy.error);
      }
    }
  }

  /** The key of one cell of the reported table. */
  datatype MetricKey = MetricKey(name: string, tags: Tags)

  type Table = map<MetricKey, Metric>

  /** The emitted name: optionally the application prefix, then the name prefix, a dot and the attribute name. */
  function MetricName(applicationPrefix: string, reg: Registration, attribute: Attribute): (name: string)
    ensures !reg.applyApplicationPrefix ==> name == reg.namePrefix + "." + Name(attribute)
    ensures reg.applyApplicationPrefix ==>
      name == applicationPrefix + "." + (reg.namePrefix + "." + Name(attribute))
  {
    (if reg.applyApplicationPrefix then applicationPrefix + "." else "") + reg.namePrefix + "." + Name(attribute)
  }

  /** The key under which attribute `j` of `reg` is reported. */
  function KeyOf(applicationPrefix: string, reg: Registration, j: nat): MetricKey
    requires j < |reg.bean.attributes|
  {
    MetricKey(MetricName(applicationPrefix, reg, reg.bean.attributes[j]), reg.tags)
  }

  function NumMetricsKey(versionTags: Tags): MetricKey
  {
    MetricKey("ReportCollector.NumMetrics", versionTags)
  }

  /** What one read of one attribute contributes: its key and its sanitized value, if kept. */
  datatype Reading = Reading(key: MetricKey, metric: Option<Metric>)

  function ReadingOf(applicationPrefix: string, reg: Registration, attribute: Attribute): Reading
  {
    Reading(MetricKey(MetricName(applicationPrefix, reg, attribute), reg.tags),
            Sanitize(GetValue(attribute, reg.bean.target)))
  }

  /** The readings of `attributes` of `reg`, in order. */
  function AttributeReadings(applicationPrefix: string, reg: Registration, attributes: seq<Attribute>): (rs: seq<Reading>)
    ensures |rs| == |attributes|
    ensures forall n :: 0 <= n < |rs| ==> rs[n] == ReadingOf(applicationPrefix, reg, attributes[n])
    decreases |attributes|
  {
    if attributes == [] then []
    else
      var n := |attributes| - 1;
      AttributeReadings(applicationPrefix, reg, attributes[..n]) + [ReadingOf(applicationPrefix, reg, attributes[n])]
  }

  /** The readings of one pass: every attribute of every registration, in registration order. */
  function PassReadings(applicationPrefix: string, regs: seq<Registration>): seq<Reading>
    decreases |regs|
  {
    if regs == [] then []
    else
      var n := |regs| - 1;
      PassReadings(applicationPrefix, regs[..n]) + AttributeReadings(applicationPrefix, regs[n], regs[n].bean.attributes)
  }

  /** The (registration, attribute) positions `(i, 0), ..., (i, count - 1)`. */
  function RowPositions(i: nat, count: nat): (ps: seq<(nat, nat)>)
    ensures |ps| == count
    ensures forall j :: 0 <= j < count ==> ps[j] == (i, j)
  {
    if count == 0 then [] else RowPositions(i, count - 1) + [(i, count - 1)]
  }

  /** The (registration, attribute) positions a pass visits, in the order it visits them. */
  function AttributePositions(regs: seq<Registration>): (ps: seq<(nat, nat)>)
    ensures forall p :: 0 <= p < |ps| ==> ps[p].0 < |regs| && ps[p].1 < |regs[ps[p].0].bean.attributes|
    decreases |regs|
  {
    if regs == [] then []
    else
      var n := |regs| - 1;
      AttributePositions(regs[..n]) + RowPositions(n, |regs[n].bean.attributes|)
  }

  /** What one reading puts into the table: its key and value when the value was kept, nothing otherwise. */
  function Kept(r: Reading): seq<(MetricKey, Metric)>
  {
    if r.metric.Some? then [(r.key, r.metric.value)] else []
  }

  /** The kept values of a sequence of readings, in order. */
  function Survivors(rs: seq<Reading>): seq<(MetricKey, Metric)>
    decreases |rs|
  {
    if rs == [] then [] else Survivors(rs[..|rs| - 1]) + Kept(rs[|rs| - 1])
  }

  /** The table built by putting the entries in order; a later entry replaces an earlier one with its key. */
  function Tabulate(entries: seq<(MetricKey, Metric)>): Table
    decreases |entries|
  {
    if entries == [] then map[]
    else
      var last := entries[|entries| - 1];
      Tabulate(entries[..|entries| - 1])[last.0 := last.1]
  }

  /** The table one pass reports: the kept readings plus the NumMetrics count of them. */
  function PassTable(applicationPrefix: string, versionTags: Tags, regs: seq<Registration>): (table: Table)
    ensures NumMetricsKey(versionTags) in table
  {
    var kept := Survivors(PassReadings(applicationPrefix, regs));
    Tabulate(kept)[NumMetricsKey(versionTags) := IntegerMetric(WrapInt32(|kept|))]
  }

  /** Number of attributes over all registrations. */
  function AttributeCount(regs: seq<Registration>): nat
    decreases |regs|
  {
    if regs == [] then 0 else AttributeCount(regs[..|regs| - 1]) + |regs[|regs| - 1].bean.attributes|
  }

  // ---------------------------------------------------------------------------
  // Facts about the specification functions

  lemma SurvivorsAppend(rs: seq<Reading>, r: Reading)
    ensures Survivors(rs + [r]) == Survivors(rs) + Kept(r)
  {
    assert (rs + [r])[..|rs|] == rs;
  }

  lemma TabulateAppend(entries: seq<(MetricKey, Metric)>, e: (MetricKey, Metric))
    ensures Tabulate(entries + [e]) == Tabulate(entries)[e.0 := e.1]
  {
    assert (entries + [e])[..|entries|] == entries;
  }

  /** Kept readings are exactly the readings with a value, and only those. */
  lemma {:induction false} SurvivorsMembership(rs: seq<Reading>)
    ensures forall e :: e in Survivors(rs) <==> Reading(e.0, Some(e.1)) in rs
    decreases |rs|
  {
    if rs != [] {
      var n := |rs| - 1;
      SurvivorsMembership(rs[..n]);
      assert rs == rs[..n] + [rs[n]];
      SurvivorsAppend(rs[..n], rs[n]);
    }
  }

  /** The keys of the kept readings are among the keys of the readings. */
  lemma SurvivorKeys(rs: seq<Reading>)
    ensures forall p :: 0 <= p < |Survivors(rs)| ==>
      exists q :: 0 <= q < |rs| && rs[q] == Reading(Survivors(rs)[p].0, Some(Survivors(rs)[p].1))
  {
    var kept := Survivors(rs);
    SurvivorsMembership(rs);
    forall p | 0 <= p < |kept|
      ensures exists q :: 0 <= q < |rs| && rs[q] == Reading(kept[p].0, Some(kept[p].1))
    {
      assert kept[p] in kept;
      var q :| 0 <= q < |rs| && rs[q] == Reading(kept[p].0, Some(kept[p].1));
    }
  }

  ghost predicate DistinctReadingKeys(rs: seq<Reading>)
  {
    forall p, q :: 0 <= p < q < |rs| ==> rs[p].key != rs[q].key
  }

  ghost predicate DistinctEntryKeys(entries: seq<(MetricKey, Metric)>)
  {
    forall p, q :: 0 <= p < q < |entries| ==> entries[p].0 != entries[q].0
  }

  /** Dropping readings keeps the remaining keys distinct. */
  lemma {:induction false} SurvivorsDistinct(rs: seq<Reading>)
    requires DistinctReadingKeys(rs)
    ensures DistinctEntryKeys(Survivors(rs))
    decreases |rs|
  {
    if rs != [] {
      var n := |rs| - 1;
      assert rs == rs[..n] + [rs[n]];
      SurvivorsDistinct(rs[..n]);
      SurvivorsAppend(rs[..n], rs[n]);
      SurvivorKeys(rs[..n]);
      var prev := Survivors(rs[..n]);
      forall p | 0 <= p < |prev|
        ensures prev[p].0 != rs[n].key
      {
        var q :| 0 <= q < n && rs[..n][q] == Reading(prev[p].0, Some(prev[p].1));
        assert rs[q].key == prev[p].0;
      }
    }
  }

  /** The table holds a key exactly when some entry has it. */
  lemma {:induction false} TabulateKeys(entries: seq<(MetricKey, Metric)>, k: MetricKey)
    ensures k in Tabulate(entries) <==> exists p :: 0 <= p < |entries| && entries[p].0 == k
    decreases |entries|
  {
    if entries != [] {
      var n := |entries| - 1;
      var init := entries[..n];
      TabulateKeys(init, k);
      if exists p :: 0 <= p < |entries| && entries[p].0 == k {
        var p :| 0 <= p < |entries| && entries[p].0 == k;
        if p < n {
          assert init[p].0 == k;
        }
      }
      if k in Tabulate(init) {
        var p :| 0 <= p < n && init[p].0 == k;
        assert entries[p].0 == k;
      }
    }
  }

  /** A key of the table holds the value of the last entry with that key. */
  lemma {:induction false} TabulateLast(entries: seq<(MetricKey, Metric)>, k: MetricKey)
    requires k in Tabulate(entries)
    ensures exists p :: 0 <= p < |entries| && entries[p] == (k, Tabulate(entries)[k]) &&
                        forall q :: p < q < |entries| ==> entries[q].0 != k
    decreases |entries|
  {
    assert entries != [];
    var n := |entries| - 1;
    var init := entries[..n];
    if entries[n].0 == k {
      assert entries[n] == (k, Tabulate(entries)[k]);
    } else {
      assert k in Tabulate(init);
      TabulateLast(init, k);
      var p :| 0 <= p < n && init[p] == (k, Tabulate(init)[k]) && forall q :: p < q < n ==> init[q].0 != k;
      assert entries[p] == (k, Tabulate(entries)[k]);
      forall q | p < q < |entries|
        ensures entries[q].0 != k
      {
        if q < n {
          assert entries[q] == init[q];
        }
      }
    }
  }

  /** The table holds a key exactly when some entry has it, and then the last such entry's value. */
  lemma TabulateLookup(entries: seq<(MetricKey, Metric)>, k: MetricKey)
    ensures k in Tabulate(entries) <==> exists p :: 0 <= p < |entries| && entries[p].0 == k
    ensures k in Tabulate(entries) ==>
      exists p :: 0 <= p < |entries| && entries[p] == (k, Tabulate(entries)[k]) &&
        forall q :: p < q < |entries| ==> entries[q].0 != k
  {
    TabulateKeys(entries, k);
    if k in Tabulate(entries) {
      TabulateLast(entries, k);
    }
  }

  /** With distinct keys, the table has one cell per entry. */
  lemma {:induction false} TabulateSize(entries: seq<(MetricKey, Metric)>)
    requires DistinctEntryKeys(entries)
    ensures |Tabulate(entries)| == |entries|
    decreases |entries|
  {
    if entries != [] {
      var n := |entries| - 1;
      TabulateSize(entries[..n]);
      TabulateLookup(entries[..n], entries[n].0);
    }
  }

  /** The readings of a pass are the readings of the visited positions, one for one. */
  lemma {:induction false} ReadingsFollowPositions(applicationPrefix: string, regs: seq<Registration>)
    ensures |PassReadings(applicationPrefix, regs)| == |AttributePositions(regs)|
    ensures forall p :: 0 <= p < |AttributePositions(regs)| ==>
      var ij := AttributePositions(regs)[p];
      PassReadings(applicationPrefix, regs)[p] ==
        ReadingOf(applicationPrefix, regs[ij.0], regs[ij.0].bean.attributes[ij.1])
    decreases |regs|
  {
    if regs != [] {
      var n := |regs| - 1;
      var prefix := regs[..n];
      ReadingsFollowPositions(applicationPrefix, prefix);
      AttributePositionsSplit(regs);
      var readingsBefore := PassReadings(applicationPrefix, prefix);
      var positionsBefore := AttributePositions(prefix);
      var attributes := regs[n].bean.attributes;
      var row := AttributeReadings(applicationPrefix, regs[n], attributes);
      var rowPositions := RowPositions(n, |attributes|);
      assert PassReadings(applicationPrefix, regs) == readingsBefore + row;
      forall p | 0 <= p < |positionsBefore| + |rowPositions|
        ensures var ij: (nat, nat) := (positionsBefore + rowPositions)[p];
          (readingsBefore + row)[p] == ReadingOf(applicationPrefix, regs[ij.0], regs[ij.0].bean.attributes[ij.1])
      {
        if p < |positionsBefore| {
          var ij := positionsBefore[p];
          assert prefix[ij.0] == regs[ij.0];
        } else {
          var j := p - |positionsBefore|;
          assert rowPositions[j] == (n, j);
          assert row[j] == ReadingOf(applicationPrefix, regs[n], attributes[j]);
        }
      }
    }
  }

  /** Positions of earlier registrations come before the row of the last one. */
  lemma AttributePositionsSplit(regs: seq<Registration>)
    requires regs != []
    ensures var n := |regs| - 1;
      && AttributePositions(regs) == AttributePositions(regs[..n]) + RowPositions(n, |regs[n].bean.attributes|)
      && forall p :: 0 <= p < |AttributePositions(regs[..n])| ==> AttributePositions(regs[..n])[p].0 < n
  {
  }

  /** No position is visited twice in a pass. */
  lemma {:induction false} PositionsDistinct(regs: seq<Registration>)
    ensures forall p, q :: 0 <= p < q < |AttributePositions(regs)| ==>
      AttributePositions(regs)[p] != AttributePositions(regs)[q]
    decreases |regs|
  {
    if regs != [] {
      var n := |regs| - 1;
      PositionsDistinct(regs[..n]);
      AttributePositionsSplit(regs);
    }
  }

  /** Every (registration, attribute) position is visited in a pass. */
  lemma {:induction false} PositionsCover(regs: seq<Registration>)
    ensures forall i, j :: 0 <= i < |regs| && 0 <= j < |regs[i].bean.attributes| ==>
      (i, j) in AttributePositions(regs)
    decreases |regs|
  {
    if regs != [] {
      var n := |regs| - 1;
      PositionsCover(regs[..n]);
      AttributePositionsSplit(regs);
      var row := RowPositions(n, |regs[n].bean.attributes|);
      forall i, j | 0 <= i < |regs| && 0 <= j < |regs[i].bean.attributes|
        ensures (i, j) in AttributePositions(regs)
      {
        if i < n {
          assert regs[..n][i] == regs[i];
          assert (i, j) in AttributePositions(regs[..n]);
        } else {
          assert row[j] == (i, j);
        }
      }
    }
  }

  /** A pass visits as many positions as there are attributes. */
  lemma {:induction false} PositionsCount(regs: seq<Registration>)
    ensures |AttributePositions(regs)| == AttributeCount(regs)
    decreases |regs|
  {
    if regs != [] {
      PositionsCount(regs[..|regs| - 1]);
    }
  }

  /**
   * Each attribute is visited exactly once per pass: the visited positions are
   * pairwise different, every (registration, attribute) position is among them,
   * and there are as many as there are attributes.
   */
  lemma PositionsExactlyOnce(regs: seq<Registration>)
    ensures forall p, q :: 0 <= p < q < |AttributePositions(regs)| ==>
      AttributePositions(regs)[p] != AttributePositions(regs)[q]
    ensures forall i, j :: 0 <= i < |regs| && 0 <= j < |regs[i].bean.attributes| ==>
      (i, j) in AttributePositions(regs)
    ensures |AttributePositions(regs)| == AttributeCount(regs)
  {
    PositionsDistinct(regs);
    PositionsCover(regs);
    PositionsCount(regs);
  }

  /** Every attribute of every registration is read in the pass. */
  lemma PassReadsEveryAttribute(applicationPrefix: string, regs: seq<Registration>, i: nat, j: nat)
    requires i < |regs| && j < |regs[i].bean.attributes|
    ensures exists p :: 0 <= p < |PassReadings(applicationPrefix, regs)| &&
                        PassReadings(applicationPrefix, regs)[p] ==
                          ReadingOf(applicationPrefix, regs[i], regs[i].bean.attributes[j])
  {
    PositionsExactlyOnce(regs);
    ReadingsFollowPositions(applicationPrefix, regs);
    var ps := AttributePositions(regs);
    var p :| 0 <= p < |ps| && ps[p] == (i, j);
    assert PassReadings(applicationPrefix, regs)[p] == ReadingOf(applicationPrefix, regs[i], regs[i].bean.attributes[j]);
  }

  /**
   * No two attributes of the pass, in the same or different registrations,
   * share a key, and none takes the NumMetrics key.
   */
  ghost predicate UniqueKeys(applicationPrefix: string, versionTags: Tags, regs: seq<Registration>)
  {
    && (forall i, j, i', j' ::
          0 <= i < |regs| && 0 <= j < |regs[i].bean.attributes| &&
          0 <= i' < |regs| && 0 <= j' < |regs[i'].bean.attributes| &&
          KeyOf(applicationPrefix, regs[i], j) == KeyOf(applicationPrefix, regs[i'], j') ==>
            i == i' && j == j')
    && (forall i, j :: 0 <= i < |regs| && 0 <= j < |regs[i].bean.attributes| ==>
          KeyOf(applicationPrefix, regs[i], j) != NumMetricsKey(versionTags))
  }

  lemma UniqueKeysDistinctReadings(applicationPrefix: string, versionTags: Tags, regs: seq<Registration>)
    requires UniqueKeys(applicationPrefix, versionTags, regs)
    ensures DistinctReadingKeys(PassReadings(applicationPrefix, regs))
    ensures forall p :: 0 <= p < |PassReadings(applicationPrefix, regs)| ==>
      PassReadings(applicationPrefix, regs)[p].key != NumMetricsKey(versionTags)
  {
    var rs := PassReadings(applicationPrefix, regs);
    var ps := AttributePositions(regs);
    PositionsExactlyOnce(regs);
    ReadingsFollowPositions(applicationPrefix, regs);
    forall p | 0 <= p < |rs|
      ensures rs[p].key == KeyOf(applicationPrefix, regs[ps[p].0], ps[p].1)
    {
    }
    forall p, q | 0 <= p < q < |rs|
      ensures rs[p].key != rs[q].key
    {
      assert ps[p] != ps[q];
    }
  }

  /** Under distinct keys, a reading's key is in the table exactly when its value is kept, and holds that value. */
  lemma KeptReadingLookup(rs: seq<Reading>, p: nat)
    requires DistinctReadingKeys(rs)
    requires p < |rs|
    ensures rs[p].key in Tabulate(Survivors(rs)) <==> rs[p].metric.Some?
    ensures rs[p].metric.Some? ==> Tabulate(Survivors(rs))[rs[p].key] == rs[p].metric.value
  {
    var kept := Survivors(rs);
    var rd := rs[p];
    SurvivorsDistinct(rs);
    SurvivorsMembership(rs);
    SurvivorKeys(rs);
    TabulateLookup(kept, rd.key);
    if rd.key in Tabulate(kept) {
      var x :| 0 <= x < |kept| && kept[x] == (rd.key, Tabulate(kept)[rd.key]);
      var q :| 0 <= q < |rs| && rs[q] == Reading(kept[x].0, Some(kept[x].1));
      assert q == p;
    }
    if rd.metric.Some? {
      assert (rd.key, rd.metric.value) in kept;
    }
  }

  /**
   * What the pass reports for one attribute: under distinct keys, the
   * attribute's key is in the table exactly when its sanitized value was kept,
   * and then it holds that value. Faults, null, NaN, infinities and sentinels of
   * one attribute therefore remove that attribute only.
   */
  lemma PassReportsAttribute(applicationPrefix: string, versionTags: Tags, regs: seq<Registration>, i: nat, j: nat)
    requires UniqueKeys(applicationPrefix, versionTags, regs)
    requires i < |regs| && j < |regs[i].bean.attributes|
    ensures var table := PassTable(applicationPrefix, versionTags, regs);
      var value := Sanitize(GetValue(regs[i].bean.attributes[j], regs[i].bean.target));
      var key := MetricKey(MetricName(applicationPrefix, regs[i], regs[i].bean.attributes[j]), regs[i].tags);
      && (key in table <==> value.Some?)
      && (value.Some? ==> table[key] == value.value)
  {
    var rs := PassReadings(applicationPrefix, regs);
    var rd := ReadingOf(applicationPrefix, regs[i], regs[i].bean.attributes[j]);
    PassReadsEveryAttribute(applicationPrefix, regs, i, j);
    var p :| 0 <= p < |rs| && rs[p] == rd;
    UniqueKeysDistinctReadings(applicationPrefix, versionTags, regs);
    KeptReadingLookup(rs, p);
    assert rd.key != NumMetricsKey(versionTags);
  }

  /**
   * Every cell of the table is NumMetrics or the kept value of some attribute of
   * some registration, under that registration's tags.
   */
  lemma TableCellsComeFromAttributes(applicationPrefix: string, versionTags: Tags, regs: seq<Registration>, k: MetricKey)
    requires k in PassTable(applicationPrefix, versionTags, regs)
    ensures k == NumMetricsKey(versionTags) ||
      exists i, j :: 0 <= i < |regs| && 0 <= j < |regs[i].bean.attributes| &&
        k == KeyOf(applicationPrefix, regs[i], j) && k.tags == regs[i].tags &&
        Sanitize(GetValue(regs[i].bean.attributes[j], regs[i].bean.target)) ==
          Some(PassTable(applicationPrefix, versionTags, regs)[k])
  {
    if k != NumMetricsKey(versionTags) {
      var rs := PassReadings(applicationPrefix, regs);
      var kept := Survivors(rs);
      TabulateLookup(kept, k);
      var x :| 0 <= x < |kept| && kept[x] == (k, Tabulate(kept)[k]);
      SurvivorKeys(rs);
      var q :| 0 <= q < |rs| && rs[q] == Reading(kept[x].0, Some(kept[x].1));
      ReadingsFollowPositions(applicationPrefix, regs);
      var ij := AttributePositions(regs)[q];
      assert rs[q] == ReadingOf(applicationPrefix, regs[ij.0], regs[ij.0].bean.attributes[ij.1]);
      assert k == KeyOf(applicationPrefix, regs[ij.0], ij.1);
    }
  }

  /**
   * ReportCollector.NumMetrics is the number of the other cells of the table
   * (read as a Java int), under the version tags.
   */
  lemma NumMetricsCountsCells(applicationPrefix: string, versionTags: Tags, regs: seq<Registration>)
    requires UniqueKeys(applicationPrefix, versionTags, regs)
    ensures var table := PassTable(applicationPrefix, versionTags, regs);
      && NumMetricsKey(versionTags) in table
      && |table| >= 1
      && table[NumMetricsKey(versionTags)] == IntegerMetric(WrapInt32(|table| - 1))
  {
    var rs := PassReadings(applicationPrefix, regs);
    var kept := Survivors(rs);
    UniqueKeysDistinctReadings(applicationPrefix, versionTags, regs);
    SurvivorsDistinct(rs);
    TabulateSize(kept);
    TabulateLookup(kept, NumMetricsKey(versionTags));
    SurvivorKeys(rs);
  }

  /** A pass over one registration reads exactly that registration's attributes. */
  lemma SingleRegistrationReadings(applicationPrefix: string, reg: Registration)
    ensures PassReadings(applicationPrefix, [reg]) == AttributeReadings(applicationPrefix, reg, reg.bean.attributes)
  {
    assert [reg][..0] == [];
  }

  /** Reading a concatenation of attribute lists reads the first list, then the second. */
  lemma AttributeReadingsConcat(applicationPrefix: string, reg: Registration, xs: seq<Attribute>, ys: seq<Attribute>)
    ensures AttributeReadings(applicationPrefix, reg, xs + ys) ==
      AttributeReadings(applicationPrefix, reg, xs) + AttributeReadings(applicationPrefix, reg, ys)
  {
    var whole := AttributeReadings(applicationPrefix, reg, xs + ys);
    var parts := AttributeReadings(applicationPrefix, reg, xs) + AttributeReadings(applicationPrefix, reg, ys);
    forall n | 0 <= n < |whole|
      ensures whole[n] == parts[n]
    {
      if n < |xs| {
        assert (xs + ys)[n] == xs[n];
      } else {
        assert (xs + ys)[n] == ys[n - |xs|];
      }
    }
  }

  /** The kept values of a concatenation are the kept values of each part, in order. */
  lemma {:induction false} SurvivorsConcat(a: seq<Reading>, b: seq<Reading>)
    ensures Survivors(a + b) == Survivors(a) + Survivors(b)
    decreases |b|
  {
    if b == [] {
      assert a + b == a;
    } else {
      var n := |b| - 1;
      assert a + b == (a + b[..n]) + [b[n]];
      assert b == b[..n] + [b[n]];
      SurvivorsConcat(a, b[..n]);
      SurvivorsAppend(a + b[..n], b[n]);
      SurvivorsAppend(b[..n], b[n]);
    }
  }

  /** The table of a pass over one registration with one attribute. */
  lemma OneAttributePass(applicationPrefix: string, versionTags: Tags, reg: Registration)
    requires |reg.bean.attributes| == 1
    ensures var value := Sanitize(GetValue(reg.bean.attributes[0], reg.bean.target));
      PassTable(applicationPrefix, versionTags, [reg]) ==
        if value.Some? then
          map[KeyOf(applicationPrefix, reg, 0) := value.value, NumMetricsKey(versionTags) := IntegerMetric(1)]
        else
          map[NumMetricsKey(versionTags) := IntegerMetric(0)]
  {
    SingleRegistrationReadings(applicationPrefix, reg);
    var rs := PassReadings(applicationPrefix, [reg]);
    assert rs == [] + [rs[0]];
    SurvivorsAppend([], rs[0]);
    var kept := Survivors(rs);
    if rs[0].metric.Some? {
      assert kept == [] + [kept[0]];
      TabulateAppend([], kept[0]);
    }
  }

  /** The readings of a pass that has read registrations 0 .. i-1 and attributes 0 .. j-1 of registration i. */
  function PartialReadings(applicationPrefix: string, regs: seq<Registration>, i: nat, j: nat): seq<Reading>
    requires i < |regs| && j <= |regs[i].bean.attributes|
  {
    PassReadings(applicationPrefix, regs[..i]) + AttributeReadings(applicationPrefix, regs[i], regs[i].bean.attributes[..j])
  }

  lemma PartialReadingsStart(applicationPrefix: string, regs: seq<Registration>, i: nat)
    requires i < |regs|
    ensures PartialReadings(applicationPrefix, regs, i, 0) == PassReadings(applicationPrefix, regs[..i])
  {
    assert regs[i].bean.attributes[..0] == [];
  }

  lemma PartialReadingsStep(applicationPrefix: string, regs: seq<Registration>, i: nat, j: nat)
    requires i < |regs| && j < |regs[i].bean.attributes|
    ensures PartialReadings(applicationPrefix, regs, i, j + 1) ==
      PartialReadings(applicationPrefix, regs, i, j) + [ReadingOf(applicationPrefix, regs[i], regs[i].bean.attributes[j])]
  {
    var attributes := regs[i].bean.attributes;
    assert attributes[..j + 1][..j] == attributes[..j];
  }

  /** One read of the collection loop: the kept value, if any, is put under the attribute's key. */
  lemma CollectStep(applicationPrefix: string, regs: seq<Registration>, i: nat, j: nat)
    requires i < |regs| && j < |regs[i].bean.attributes|
    ensures var value := Sanitize(GetValue(regs[i].bean.attributes[j], regs[i].bean.target));
      var before := Survivors(PartialReadings(applicationPrefix, regs, i, j));
      var after := Survivors(PartialReadings(applicationPrefix, regs, i, j + 1));
      && Tabulate(after) ==
           (if value.Some? then Tabulate(before)[KeyOf(applicationPrefix, regs[i], j) := value.value] else Tabulate(before))
      && |after| == |before| + (if value.Some? then 1 else 0)
  {
    var done := PartialReadings(applicationPrefix, regs, i, j);
    var reading := ReadingOf(applicationPrefix, regs[i], regs[i].bean.attributes[j]);
    PartialReadingsStep(applicationPrefix, regs, i, j);
    SurvivorsAppend(done, reading);
    assert reading.key == KeyOf(applicationPrefix, regs[i], j);
    if reading.metric.Some? {
      var e := (reading.key, reading.metric.value);
      assert Survivors(done + [reading]) == Survivors(done) + [e];
      TabulateAppend(Survivors(done), e);
    } else {
      assert Survivors(done + [reading]) == Survivors(done);
    }
  }

  lemma RowPositionsStep(before: seq<(nat, nat)>, i: nat, j: nat)
    ensures before + RowPositions(i, j + 1) == before + RowPositions(i, j) + [(i, j)]
  {
  }

  lemma PartialReadingsEnd(applicationPrefix: string, regs: seq<Registration>, i: nat)
    requires i < |regs|
    ensures PartialReadings(applicationPrefix, regs, i, |regs[i].bean.attributes|) == PassReadings(applicationPrefix, regs[..i + 1])
    ensures AttributePositions(regs[..i + 1]) == AttributePositions(regs[..i]) + RowPositions(i, |regs[i].bean.attributes|)
  {
    assert regs[..i + 1][..i] == regs[..i];
    assert regs[i].bean.attributes[..|regs[i].bean.attributes|] == regs[i].bean.attributes;
  }

  // ---------------------------------------------------------------------------
  // The collaborators and the collector

  /** Supplies the bucket id of a pass (the provider's last system time, in milliseconds). */
  class MinuteBucketIdProvider {
    var lastSystemTimeMillis: int

    constructor (millis: int)
      ensures lastSystemTimeMillis == millis
    {
      lastSystemTimeMillis := millis;
    }

    method GetLastSystemTimeMillis() returns (millis: int)
      ensures millis == lastSystemTimeMillis
    {
      millis := lastSystemTimeMillis;
    }
  }

  /** One call of the sink. */
  datatype ReportCall = ReportCall(bucketId: int, table: Table)

  /** The sink, as the record of the calls made to it. */
  class ReportSink {
    var reports: seq<ReportCall>

    constructor ()
      ensures reports == []
    {
      reports := [];
    }

    method Report(bucketId: int, table: Table)
      modifies this
      ensures reports == old(reports) + [ReportCall(bucketId, table)]
    {
      reports := reports + [ReportCall(bucketId, table)];
    }
  }

  /** What the collector takes from the node: its application prefix and its two versions. */
  datatype NodeInfo = NodeInfo(applicationPrefix: string, applicationVersion: string, platformVersion: string)

  function VersionTags(nodeInfo: NodeInfo): (tags: Tags)
    ensures tags.Keys == {"applicationVersion", "platformVersion"}
    ensures tags["applicationVersion"] == nodeInfo.applicationVersion
    ensures tags["platformVersion"] == nodeInfo.platformVersion
  {
    map["applicationVersion" := nodeInfo.applicationVersion, "platformVersion" := nodeInfo.platformVersion]
  }

  class ReportCollector {
    const applicationPrefix: string
    const versionTags: Tags
    const bucketIdProvider: MinuteBucketIdProvider
    const registry: ReportedBeanRegistry
    const sink: ReportSink

    constructor (nodeInfo: NodeInfo, bucketIdProvider: MinuteBucketIdProvider,
                 registry: ReportedBeanRegistry, sink: ReportSink)
      ensures this.applicationPrefix == nodeInfo.applicationPrefix
      ensures this.versionTags == VersionTags(nodeInfo)
      ensures this.bucketIdProvider == bucketIdProvider && this.registry == registry && this.sink == sink
    {
      this.applicationPrefix := nodeInfo.applicationPrefix;
      this.versionTags := VersionTags(nodeInfo);
      this.bucketIdProvider := bucketIdProvider;
      this.registry := registry;
      this.sink := sink;
    }

    /**
     * One read of attribute `j` of `regs[i]`: its value is sanitized and, when
     * kept, stored under the attribute's key and counted.
     */
    method CollectAttribute(regs: seq<Registration>, i: nat, j: nat, table: Table, count: nat)
      returns (table': Table, count': nat, ghost read: (nat, nat))
      requires i < |regs| && j < |regs[i].bean.attributes|
      requires table == Tabulate(Survivors(PartialReadings(applicationPrefix, regs, i, j)))
      requires count == |Survivors(PartialReadings(applicationPrefix, regs, i, j))|
      ensures table' == Tabulate(Survivors(PartialReadings(applicationPrefix, regs, i, j + 1)))
      ensures count' == |Survivors(PartialReadings(applicationPrefix, regs, i, j + 1))|
      ensures read == (i, j)
    {
      var reg := regs[i];
      var value := Sanitize(GetValue(reg.bean.attributes[j], reg.bean.target));
      read := (i, j);
      CollectStep(applicationPrefix, regs, i, j);
      table', count' := table, count;
      if value.Some? {
        table' := table'[KeyOf(applicationPrefix, reg, j) := value.value];
        count' := count' + 1;
      }
    }

    /**
     * The readings of one registration, appended to the pass so far: each
     * attribute of `regs[i]` is read once, in order.
     */
    method CollectRegistration(regs: seq<Registration>, i: nat, table: Table, count: nat,
                               ghost visited: seq<(nat, nat)>)
      returns (table': Table, count': nat, ghost visited': seq<(nat, nat)>)
      requires i < |regs|
      requires table == Tabulate(Survivors(PassReadings(applicationPrefix, regs[..i])))
      requires count == |Survivors(PassReadings(applicationPrefix, regs[..i]))|
      requires visited == AttributePositions(regs[..i])
      ensures table' == Tabulate(Survivors(PassReadings(applicationPrefix, regs[..i + 1])))
      ensures count' == |Survivors(PassReadings(applicationPrefix, regs[..i + 1]))|
      ensures visited' == AttributePositions(regs[..i + 1])
    {
      PartialReadingsStart(applicationPrefix, regs, i);
      table', count', visited' := table, count, visited;
      var j := 0;
      while j < |regs[i].bean.attributes|
        invariant 0 <= j <= |regs[i].bean.attributes|
        invariant table' == Tabulate(Survivors(PartialReadings(applicationPrefix, regs, i, j)))
        invariant count' == |Survivors(PartialReadings(applicationPrefix, regs, i, j))|
        invariant visited' == AttributePositions(regs[..i]) + RowPositions(i, j)
      {
        ghost var read: (nat, nat);
        table', count', read := CollectAttribute(regs, i, j, table', count');
        RowPositionsStep(AttributePositions(regs[..i]), i, j);
        visited' := visited' + [read];
        j := j + 1;
      }
      PartialReadingsEnd(applicationPrefix, regs, i);
    }

    /**
     * One pass. The sink is called exactly once, with the provider's bucket id and
     * the pass table of the current registrations; `visited` records the
     * (registration, attribute) positions in the order their values were read.
     */
    method CollectData() returns (ghost visited: seq<(nat, nat)>)
      modifies sink
      ensures sink.reports == old(sink.reports) +
        [ReportCall(bucketIdProvider.lastSystemTimeMillis, PassTable(applicationPrefix, versionTags, registry.registrations))]
      ensures visited == AttributePositions(registry.registrations)
    {
      var bucketId := bucketIdProvider.GetLastSystemTimeMillis();
      var regs := registry.registrations;
      var table: Table := map[];
      var count: nat := 0;
      visited := [];
      var i := 0;
      while i < |regs|
        invariant 0 <= i <= |regs|
        invariant table == Tabulate(Survivors(PassReadings(applicationPrefix, regs[..i])))
        invariant count == |Survivors(PassReadings(applicationPrefix, regs[..i]))|
        invariant visited == AttributePositions(regs[..i])
        invariant sink.reports == old(sink.reports)
      {
        table, count, visited := CollectRegistration(regs, i, table, count, visited);
        i := i + 1;
      }
      assert regs[..|regs|] == regs;
      table := table[NumMetricsKey(versionTags) := IntegerMetric(WrapInt32(count))];
      sink.Report(bucketId, table);
    }
  }
}
