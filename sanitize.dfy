/**
 * The per-value rule the collection pass applies to what an accessor returned:
 * faults, null, NaN, the infinities and the MAX_VALUE / MIN_VALUE sentinels of
 * long, int and short are dropped; booleans become the integers 1 and 0; numbers
 * keep their own width; any other object is reported by its text.
 */
module MetricSanitizer {
  import opened Wrappers
  import opened ReportedValues

  /** A value as handed to the sink: a number in its own Java width, or text. */
  datatype Metric =
    | LongMetric(l: Int64)
    | IntegerMetric(i: Int32)
    | ShortMetric(s: Int16)
    | ByteMetric(y: Int8)
    | DoubleMetric(d: real)
    | FloatMetric(f: real)
    | TextMetric(text: string)

  /** A double or float that is NaN or infinite. */
  predicate IsNonFinite(v: Value)
  {
    (v.Double? && !v.d.Finite?) || (v.Float? && !v.f.Finite?)
  }

  /** A long, int or short equal to its type's MIN_VALUE or MAX_VALUE. */
  predicate IsSentinel(v: Value)
  {
    || (v.Long? && (v.l == LONG_MIN || v.l == LONG_MAX))
    || (v.Integer? && (v.i == INT_MIN || v.i == INT_MAX))
    || (v.Short? && (v.s == SHORT_MIN || v.s == SHORT_MAX))
  }

  /** A primitive or boxed number of one of the six Java widths. */
  predicate IsNumber(v: Value)
  {
    v.Long? || v.Integer? || v.Short? || v.Byte? || v.Double? || v.Float?
  }

  /** The sanitization rule: None means the metric is left out of this pass. */
  function Sanitize(o: Outcome): (r: Option<Metric>)
    ensures r.None? <==>
      o.Threw? || o.value.Null? || IsNonFinite(o.value) || IsSentinel(o.value)
    ensures o.Returned? && o.value.Bool? ==>
      r == Some(IntegerMetric(if o.value.b then 1 else 0))
    ensures o.Returned? && o.value.Instance? ==> r == Some(TextMetric(o.value.text))
    ensures o.Returned? && o.value.Byte? ==> r == Some(ByteMetric(o.value.y))
  {
    match o
    case Threw(_) => None
    case Returned(v) =>
      match v
      case Null => None
      case Bool(b) => Some(IntegerMetric(if b then 1 else 0))
      case Long(l) => if l == LONG_MIN || l == LONG_MAX then None else Some(LongMetric(l))
      case Integer(i) => if i == INT_MIN || i == INT_MAX then None else Some(IntegerMetric(i))
      case Short(s) => if s == SHORT_MIN || s == SHORT_MAX then None else Some(ShortMetric(s))
      case Byte(y) => Some(ByteMetric(y))
      case Double(d) => if d.Finite? then Some(DoubleMetric(d.r)) else None
      case Float(f) => if f.Finite? then Some(FloatMetric(f.r)) else None
      case Instance(text, _) => Some(TextMetric(text))
  }

  /** The Java value a numeric metric stands for; text has no numeric reading. */
  function AsNumber(m: Metric): Option<Value>
  {
    match m
    case LongMetric(l) => Some(Long(l))
    case IntegerMetric(i) => Some(Integer(i))
    case ShortMetric(s) => Some(Short(s))
    case ByteMetric(y) => Some(Byte(y))
    case DoubleMetric(d) => Some(Double(Finite(d)))
    case FloatMetric(f) => Some(Float(Finite(f)))
    case TextMetric(_) => None
  }

  /**
   * Numbers keep their native representation: every number the rule keeps is
   * reported with its own width and value, and a reported number reads back as
   * the value the accessor returned (or, for a boolean, as its integer 0 or 1).
   */
  lemma NumbersKeepRepresentation(v: Value)
    ensures IsNumber(v) && !IsNonFinite(v) && !IsSentinel(v) ==>
      Sanitize(Returned(v)).Some? && AsNumber(Sanitize(Returned(v)).value) == Some(v)
    ensures Sanitize(Returned(v)).Some? && AsNumber(Sanitize(Returned(v)).value).Some? ==>
      (IsNumber(v) && AsNumber(Sanitize(Returned(v)).value) == Some(v)) ||
      (v.Bool? && AsNumber(Sanitize(Returned(v)).value) == Some(Integer(if v.b then 1 else 0)))
  {
  }

  /** Java's `int` arithmetic on a count: the count modulo 2^32, read as a signed value. */
  function WrapInt32(n: nat): (r: Int32)
    ensures n <= INT_MAX ==> r == n
  {
    (n + 0x8000_0000) % 0x1_0000_0000 - 0x8000_0000
  }
}
