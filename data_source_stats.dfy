/**
 * The statistics a managed data source keeps: three timers (checkout, create,
 * held) and two error counters (connection errors, creation errors). Each of
 * the five package-private recorders touches exactly one of them.
 */
module DataSourceStats {
  import opened ReportedValues

  /** A measured elapsed time; the statistics only store durations, they never compute with them. */
  datatype Duration = Duration(millis: real)

  /** A timer, as the sequence of durations recorded into it, oldest first. */
  class TimerStat {
    var values: seq<Duration>

    constructor ()
      ensures values == []
    {
      values := [];
    }

    method AddValue(elapsedTime: Duration)
      modifies this
      ensures values == old(values) + [elapsedTime]
    {
      values := values + [elapsedTime];
    }
  }

  /** The observable state: what each timer holds and the two counter values. */
  datatype Snapshot = Snapshot(
    checkout: seq<Duration>,
    create: seq<Duration>,
    held: seq<Duration>,
    connectionErrorCount: Int64,
    creationErrorCount: Int64)

  /** The state of a freshly built statistics object. */
  const Initial: Snapshot := Snapshot([], [], [], 0, 0)

  /** One call of a recorder. */
  datatype Event =
    | CheckedOut(elapsedTime: Duration)   // connectionCheckedOut
    | Created(elapsedTime: Duration)      // connectionCreated
    | Returned(elapsedTime: Duration)     // connectionReturned
    | CreationError                       // creationErrorOccurred
    | ConnectionError                     // connectionErrorOccurred

  /** What one recorder call does to the state. */
  function Apply(s: Snapshot, e: Event): Snapshot
  {
    match e
    case CheckedOut(d) => s.(checkout := s.checkout + [d])
    case Created(d) => s.(create := s.create + [d])
    case Returned(d) => s.(held := s.held + [d])
    case CreationError => s.(creationErrorCount := IncrementInt64(s.creationErrorCount))
    case ConnectionError => s.(connectionErrorCount := IncrementInt64(s.connectionErrorCount))
  }

  /** The state after the recorder calls `events`, in order, on a fresh object. */
  function Replay(events: seq<Event>): Snapshot
    decreases |events|
  {
    if events == [] then Initial
    else Apply(Replay(events[..|events| - 1]), events[|events| - 1])
  }

  /** The durations of the events of one kind, in order. */
  function CheckoutTimes(events: seq<Event>): seq<Duration>
    decreases |events|
  {
    if events == [] then []
    else
      var e := events[|events| - 1];
      CheckoutTimes(events[..|events| - 1]) + (if e.CheckedOut? then [e.elapsedTime] else [])
  }

  function CreateTimes(events: seq<Event>): seq<Duration>
    decreases |events|
  {
    if events == [] then []
    else
      var e := events[|events| - 1];
      CreateTimes(events[..|events| - 1]) + (if e.Created? then [e.elapsedTime] else [])
  }

  function HeldTimes(events: seq<Event>): seq<Duration>
    decreases |events|
  {
    if events == [] then []
    else
      var e := events[|events| - 1];
      HeldTimes(events[..|events| - 1]) + (if e.Returned? then [e.elapsedTime] else [])
  }

  /** How many of `events` are `kind`. */
  function Occurrences(events: seq<Event>, kind: Event): nat
    decreases |events|
  {
    if events == [] then 0
    else Occurrences(events[..|events| - 1], kind) + (if events[|events| - 1] == kind then 1 else 0)
  }

  /** Java's `long` reading of a count: the count modulo 2^64, as a signed value. */
  function WrapInt64(n: nat): (r: Int64)
    ensures n <= LONG_MAX ==> r == n
  {
    (n + 0x8000_0000_0000_0000) % 0x1_0000_0000_0000_0000 - 0x8000_0000_0000_0000
  }

  lemma WrapInt64Step(n: nat)
    ensures WrapInt64(n + 1) == IncrementInt64(WrapInt64(n))
  {
  }

  /**
   * Each recorder changes exactly one component: a duration is appended to its
   * own timer, an error adds one (with AtomicLong's wrap-around) to its own
   * counter, and every other component keeps its value.
   */
  lemma ApplyChangesOneComponent(s: Snapshot, e: Event)
    ensures var t := Apply(s, e);
      && t.checkout == (if e.CheckedOut? then s.checkout + [e.elapsedTime] else s.checkout)
      && t.create == (if e.Created? then s.create + [e.elapsedTime] else s.create)
      && t.held == (if e.Returned? then s.held + [e.elapsedTime] else s.held)
      && t.creationErrorCount ==
           (if e == CreationError then IncrementInt64(s.creationErrorCount) else s.creationErrorCount)
      && t.connectionErrorCount ==
           (if e == ConnectionError then IncrementInt64(s.connectionErrorCount) else s.connectionErrorCount)
  {
  }

  /**
   * The counters never decrease before they reach Long.MAX_VALUE: below it,
   * every recorder leaves a counter where it was or adds exactly one.
   */
  lemma CountersNeverDecrease(s: Snapshot, e: Event)
    requires s.creationErrorCount < LONG_MAX && s.connectionErrorCount < LONG_MAX
    ensures Apply(s, e).creationErrorCount >= s.creationErrorCount
    ensures Apply(s, e).connectionErrorCount >= s.connectionErrorCount
    ensures Apply(s, e).creationErrorCount + Apply(s, e).connectionErrorCount
              <= s.creationErrorCount + s.connectionErrorCount + 1
  {
  }

  /** Each timer holds exactly the durations of its own kind of event, in order. */
  lemma {:induction false} ReplayTimers(events: seq<Event>)
    ensures Replay(events).checkout == CheckoutTimes(events)
    ensures Replay(events).create == CreateTimes(events)
    ensures Replay(events).held == HeldTimes(events)
    decreases |events|
  {
    if events != [] {
      ReplayTimers(events[..|events| - 1]);
    }
  }

  /** Each counter is the number of its own kind of error, read as a Java long. */
  lemma {:induction false} ReplayCounters(events: seq<Event>)
    ensures Replay(events).creationErrorCount == WrapInt64(Occurrences(events, CreationError))
    ensures Replay(events).connectionErrorCount == WrapInt64(Occurrences(events, ConnectionError))
    decreases |events|
  {
    if events != [] {
      var n := |events| - 1;
      ReplayCounters(events[..n]);
      WrapInt64Step(Occurrences(events[..n], CreationError));
      WrapInt64Step(Occurrences(events[..n], ConnectionError));
    }
  }

  /** Counters start at 0 and, short of 2^63 errors, equal the number of errors recorded. */
  lemma CountersCountErrors(events: seq<Event>)
    requires Occurrences(events, CreationError) <= LONG_MAX
    requires Occurrences(events, ConnectionError) <= LONG_MAX
    ensures Replay(events).creationErrorCount == Occurrences(events, CreationError)
    ensures Replay(events).connectionErrorCount == Occurrences(events, ConnectionError)
  {
    ReplayCounters(events);
  }

  class ManagedDataSourceStats {
    const checkout: TimerStat
    const create: TimerStat
    const held: TimerStat
    var connectionErrorCount: Int64
    var creationErrorCount: Int64

    /** The three timers are three different objects. */
    ghost predicate Valid()
      reads this
    {
      checkout != create && create != held && checkout != held
    }

    function State(): Snapshot
      reads this, checkout, create, held
    {
      Snapshot(checkout.values, create.values, held.values, connectionErrorCount, creationErrorCount)
    }

    constructor ()
      ensures Valid()
      ensures fresh(checkout) && fresh(create) && fresh(held)
      ensures State() == Initial
    {
      checkout := new TimerStat();
      create := new TimerStat();
      held := new TimerStat();
      connectionErrorCount := 0;
      creationErrorCount := 0;
    }

    /** getCheckout: the same timer object on every call. */
    method GetCheckout() returns (timer: TimerStat)
      ensures timer == checkout
    {
      timer := checkout;
    }

    /** getCreate: the same timer object on every call. */
    method GetCreate() returns (timer: TimerStat)
      ensures timer == create
    {
      timer := create;
    }

    /** getHeld: the same timer object on every call. */
    method GetHeld() returns (timer: TimerStat)
      ensures timer == held
    {
      timer := held;
    }

    /** getConnectionErrorCount: the current counter value; nothing changes. */
    method GetConnectionErrorCount() returns (count: Int64)
      ensures count == connectionErrorCount
    {
      count := connectionErrorCount;
    }

    /** getCreationErrorCount: the current counter value; nothing changes. */
    method GetCreationErrorCount() returns (count: Int64)
      ensures count == creationErrorCount
    {
      count := creationErrorCount;
    }

    method ConnectionCheckedOut(elapsedTime: Duration)
      requires Valid()
      modifies checkout
      ensures State() == Apply(old(State()), CheckedOut(elapsedTime))
    {
      checkout.AddValue(elapsedTime);
    }

    method ConnectionCreated(elapsedTime: Duration)
      requires Valid()
      modifies create
      ensures State() == Apply(old(State()), Created(elapsedTime))
    {
      create.AddValue(elapsedTime);
    }

    method ConnectionReturned(elapsedTime: Duration)
      requires Valid()
      modifies held
      ensures State() == Apply(old(State()), Event.Returned(elapsedTime))
    {
      held.AddValue(elapsedTime);
    }

    method CreationErrorOccurred()
      modifies this`creationErrorCount
      ensures State() == Apply(old(State()), CreationError)
    {
      creationErrorCount := IncrementInt64(creationErrorCount);
    }

    method ConnectionErrorOccurred()
      modifies this`connectionErrorCount
      ensures State() == Apply(old(State()), ConnectionError)
    {
      connectionErrorCount := IncrementInt64(connectionErrorCount);
    }
  }
}
