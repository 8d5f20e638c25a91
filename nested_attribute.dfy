/**
 * Reported bean attributes: a named read operation against a target.
 * A Direct attribute invokes one accessor on its target; a nested attribute
 * (NestedReportedBeanAttribute) first looks up a nested object on the target
 * and hands it to a delegate attribute built for the nested object's type.
 */
module ReportedBeanAttributes {
  import opened ReportedValues

  datatype Attribute =
    | Direct(attributeName: string, reader: Getter)
    | Nested(name: string, nestedGetter: Getter, delegate: Attribute)

  /** The attribute's name, fixed when the attribute was built. */
  function Name(a: Attribute): string
  {
    match a
    case Direct(n, _) => n
    case Nested(n, _, _) => n
  }

  /** Number of read steps along the attribute: one per nesting level plus the final reader. */
  function Depth(a: Attribute): (d: nat)
    ensures d >= 1
  {
    match a
    case Direct(_, _) => 1
    case Nested(_, _, delegate) => 1 + Depth(delegate)
  }

  /** The accessor at the bottom of a chain of nested attributes. */
  function Leaf(a: Attribute): (r: Getter)
  {
    match a
    case Direct(_, reader) => reader
    case Nested(_, _, delegate) => Leaf(delegate)
  }

  /**
   * The NestedReportedBeanAttribute constructor: the name is the prefix, a dot,
   * and the delegate's name, computed once here.
   */
  function NestedAttribute(prefix: string, nestedGetter: Getter, delegate: Attribute): (a: Attribute)
    ensures a.Nested? && a.nestedGetter == nestedGetter && a.delegate == delegate
    ensures Name(a) == prefix + "." + Name(delegate)
    ensures Depth(a) == Depth(delegate) + 1
  {
    Nested(prefix + "." + Name(delegate), nestedGetter, delegate)
  }

  /**
   * getValue: a Direct attribute invokes its accessor. A nested attribute
   * replaces a non-null target by what its nested getter returns (a fault
   * propagates at once) and passes the result, or the null target, to its delegate.
   */
  function GetValue(a: Attribute, target: Value): (r: Outcome)
    ensures target == Null ==> r == Leaf(a)(Null)
  {
    match a
    case Direct(_, reader) => reader(target)
    case Nested(_, nestedGetter, delegate) =>
      if target != Null then
        match nestedGetter(target)
        case Threw(fault) => Threw(fault)
        case Returned(nested) => GetValue(delegate, nested)
      else
        GetValue(delegate, Null)
  }

  /**
   * getValue of a nested attribute: on a non-null target, the delegate reads
   * what the nested getter returned, and a fault of the getter is the result;
   * on a null target, the delegate reads null.
   */
  lemma NestedValue(prefix: string, nestedGetter: Getter, delegate: Attribute, target: Value)
    ensures var a := NestedAttribute(prefix, nestedGetter, delegate);
      && (target != Null && nestedGetter(target).Returned? ==>
            GetValue(a, target) == GetValue(delegate, nestedGetter(target).value))
      && (target != Null && nestedGetter(target).Threw? ==> GetValue(a, target) == nestedGetter(target))
      && (target == Null ==> GetValue(a, target) == GetValue(delegate, Null))
  {
  }

  /** One accessor invocation made while reading an attribute. */
  datatype Invocation =
    | GetterCall(level: nat, target: Value)  // the nested getter of the attribute `level` steps below the top
    | ReaderCall(target: Value)              // the accessor at the bottom of the chain

  /**
   * The invocations GetValue(a, target) makes, in order, when `a` sits `level`
   * nesting steps below the attribute being read.
   */
  function Trace(a: Attribute, target: Value, level: nat): (calls: seq<Invocation>)
    ensures 1 <= |calls| <= Depth(a)
    ensures forall n :: 0 <= n < |calls| - 1 ==> calls[n].GetterCall?
    ensures forall n, m :: 0 <= n < m < |calls| && calls[m].GetterCall? ==>
              level <= calls[n].level < calls[m].level
    ensures forall n :: 0 <= n < |calls| && calls[n].GetterCall? ==>
              level <= calls[n].level < level + Depth(a) - 1
    ensures target == Null ==> calls == [ReaderCall(Null)]
    ensures calls[|calls| - 1].ReaderCall? ==>
              GetValue(a, target) == Leaf(a)(calls[|calls| - 1].target)
    ensures calls[|calls| - 1].GetterCall? ==> GetValue(a, target).Threw?
  {
    match a
    case Direct(_, _) => [ReaderCall(target)]
    case Nested(_, nestedGetter, delegate) =>
      if target != Null then
        match nestedGetter(target)
        case Threw(_) => [GetterCall(level, target)]
        case Returned(nested) =>
          var rest := Trace(delegate, nested, level + 1);
          assert forall n :: 0 <= n < |rest| - 1 ==> rest[n].GetterCall?;
          [GetterCall(level, target)] + rest
      else
        Trace(delegate, Null, level + 1)
  }

  /** The invocations made by one getValue call. */
  function Invocations(a: Attribute, target: Value): (calls: seq<Invocation>)
  {
    Trace(a, target, 0)
  }

  /**
   * One getValue call on a nested attribute: a null target reaches the delegate
   * without the nested getter being invoked; a non-null target makes exactly one
   * invocation of the nested getter, first, and the delegate runs only if it returned.
   */
  lemma NestedInvocations(prefix: string, nestedGetter: Getter, delegate: Attribute, target: Value)
    ensures var calls := Invocations(NestedAttribute(prefix, nestedGetter, delegate), target);
      && (target == Null ==> calls == [ReaderCall(Null)])
      && (target != Null ==>
            && calls[0] == GetterCall(0, target)
            && (forall n :: 0 < n < |calls| && calls[n].GetterCall? ==> calls[n].level > 0)
            && (nestedGetter(target).Threw? ==> calls == [GetterCall(0, target)]))
  {
  }

  /** A chain of nesting steps, outermost first: each step is a prefix and a nested getter. */
  type Path = seq<(string, Getter)>

  /** Wraps `leaf` in one nested attribute per step of `path`, innermost step first. */
  function NestAlong(path: Path, leaf: Attribute): (a: Attribute)
    decreases |path|
  {
    if path == [] then leaf
    else NestedAttribute(path[0].0, path[0].1, NestAlong(path[1..], leaf))
  }

  /** The dotted name `p1.p2. ... .leafName` of a path. */
  function DottedName(path: Path, leafName: string): string
    decreases |path|
  {
    if path == [] then leafName else path[0].0 + "." + DottedName(path[1..], leafName)
  }

  /**
   * Reference semantics of a nesting path: follow the getters one after the
   * other, stopping at the first fault; a null object is passed on without
   * invoking any further getter.
   */
  function Follow(path: Path, target: Value): Outcome
    decreases |path|
  {
    if path == [] then Returned(target)
    else if target == Null then Follow(path[1..], Null)
    else
      match path[0].1(target)
      case Threw(fault) => Threw(fault)
      case Returned(nested) => Follow(path[1..], nested)
  }

  /** Nesting composes names: wrapping along a path yields `p1.p2. ... .name`. */
  lemma {:induction false} NestAlongName(path: Path, leaf: Attribute)
    ensures Name(NestAlong(path, leaf)) == DottedName(path, Name(leaf))
    decreases |path|
  {
    if path != [] {
      NestAlongName(path[1..], leaf);
    }
  }

  /** Nesting composes values: reading along a path is following its getters, then reading the leaf. */
  lemma {:induction false} NestAlongValue(path: Path, leaf: Attribute, target: Value)
    ensures GetValue(NestAlong(path, leaf), target) ==
      match Follow(path, target)
      case Threw(fault) => Threw(fault)
      case Returned(nested) => GetValue(leaf, nested)
    decreases |path|
  {
    if path != [] {
      if target == Null {
        NestAlongValue(path[1..], leaf, Null);
      } else {
        match path[0].1(target)
        case Threw(_) =>
        case Returned(nested) => NestAlongValue(path[1..], leaf, nested);
      }
    }
  }

  /** A null object reaching a path never reaches a getter: the leaf reads null. */
  lemma {:induction false} FollowNull(path: Path)
    ensures Follow(path, Null) == Returned(Null)
    decreases |path|
  {
    if path != [] {
      FollowNull(path[1..]);
    }
  }

  /**
   * Two levels of nesting, as NestedReportedBeanAttribute wrapping another one:
   * the name is `p1.p2.name`, and on a non-null target the value is the leaf read
   * on the composition of both getters, stopping at the first fault.
   */
  lemma NestingTwice(p1: string, g1: Getter, p2: string, g2: Getter, leaf: Attribute, target: Value)
    requires target != Null
    ensures var a := NestedAttribute(p1, g1, NestedAttribute(p2, g2, leaf));
      && Name(a) == p1 + "." + p2 + "." + Name(leaf)
      && GetValue(a, target) ==
           if g1(target).Threw? then g1(target)
           else if g1(target).value == Null then GetValue(leaf, Null)
           else if g2(g1(target).value).Threw? then g2(g1(target).value)
           else GetValue(leaf, g2(g1(target).value).value)
  {
    var path: Path := [(p1, g1), (p2, g2)];
    assert NestAlong(path, leaf) == NestedAttribute(p1, g1, NestedAttribute(p2, g2, leaf)) by {
      assert path[1..] == [(p2, g2)] && path[1..][1..] == [];
      assert NestAlong(path[1..][1..], leaf) == leaf;
      assert NestAlong(path[1..], leaf) == NestedAttribute(p2, g2, leaf);
    }
    NestAlongName(path, leaf);
    NestAlongValue(path, leaf, target);
  }
}
