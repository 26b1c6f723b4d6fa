/** The destructuring registrations the façades make: an ordered list of
    entries, each either a policy or a "treat as scalar" marker for one type. */
module Registry {
  import opened Wrappers
  import opened NodaTime
  import opened NodaText
  import opened LogEvents
  import FormatPolicies
  import IntervalPolicy
  import DateTimeZonePolicy
  import ZonedDateTimePolicy

  /** The policy classes the façades register. The local-time, offset-time and
      duration policies are known here only by the type they bind. */
  datatype PolicyKind =
    | InstantDestructuringPolicy
    | OffsetDestructuringPolicy
    | LocalDateTimeDestructuringPolicy
    | LocalDateDestructuringPolicy
    | LocalTimeDestructuringPolicy
    | OffsetDateDestructuringPolicy
    | OffsetDateTimeDestructuringPolicy
    | OffsetTimeDestructuringPolicy
    | DateTimeZoneDestructuringPolicy
    | ZonedDateTimeDestructuringPolicy(provider: Option<ZoneProvider>)
    | DurationDestructuringPolicy
    | PeriodDestructuringPolicy
    | IntervalDestructuringPolicy
    | YearMonthDestructuringPolicy
  {
    /** The value type the policy is declared for. */
    function BoundType(): TypeTag {
      match this
      case InstantDestructuringPolicy => InstantType
      case OffsetDestructuringPolicy => OffsetType
      case LocalDateTimeDestructuringPolicy => LocalDateTimeType
      case LocalDateDestructuringPolicy => LocalDateType
      case LocalTimeDestructuringPolicy => LocalTimeType
      case OffsetDateDestructuringPolicy => OffsetDateType
      case OffsetDateTimeDestructuringPolicy => OffsetDateTimeType
      case OffsetTimeDestructuringPolicy => OffsetTimeType
      case DateTimeZoneDestructuringPolicy => DateTimeZoneType
      case ZonedDateTimeDestructuringPolicy(_) => ZonedDateTimeType
      case DurationDestructuringPolicy => DurationType
      case PeriodDestructuringPolicy => PeriodType
      case IntervalDestructuringPolicy => IntervalType
      case YearMonthDestructuringPolicy => YearMonthType
    }

    /** Whether this model has the policy's behaviour, not only its type. */
    predicate Modelled() {
      !(LocalTimeDestructuringPolicy? || OffsetTimeDestructuringPolicy? || DurationDestructuringPolicy?)
    }
  }

  /** One registration: `Destructure.With(policy)` or `Destructure.AsScalar<T>()`. */
  datatype Entry = With(policy: PolicyKind) | AsScalar(scalarType: TypeTag) {
    function BoundType(): TypeTag {
      match this
      case With(policy) => policy.BoundType()
      case AsScalar(t) => t
    }
  }

  /** An entry claims a value when the value has the entry's bound type. */
  predicate Claims(e: Entry, value: Value) {
    value.Type() == Some(e.BoundType())
  }

  /** Offers a value to a registered policy. The policy accepts (returns a
      result or throws) exactly the values it claims. */
  function TryDestructure(kind: PolicyKind, text: Patterns, factory: Instant -> LogEventPropertyValue, value: Value): (r: Destructuring)
    requires kind.Modelled()
    ensures r.NotApplicable? <==> !Claims(With(kind), value)
  {
    match kind
    case InstantDestructuringPolicy => FormatPolicies.DestructureInstant(text, value)
    case OffsetDestructuringPolicy => FormatPolicies.DestructureOffset(text, value)
    case LocalDateTimeDestructuringPolicy => FormatPolicies.DestructureLocalDateTime(text, value)
    case LocalDateDestructuringPolicy => FormatPolicies.DestructureLocalDate(text, value)
    case OffsetDateDestructuringPolicy => FormatPolicies.DestructureOffsetDate(text, value)
    case OffsetDateTimeDestructuringPolicy => FormatPolicies.DestructureOffsetDateTime(text, value)
    case DateTimeZoneDestructuringPolicy => DateTimeZonePolicy.TryDestructure(value)
    case ZonedDateTimeDestructuringPolicy(provider) =>
      ZonedDateTimePolicy.TryDestructure(ZonedDateTimePolicy.Create(provider), text, value)
    case PeriodDestructuringPolicy => FormatPolicies.DestructurePeriod(text, value)
    case IntervalDestructuringPolicy => IntervalPolicy.TryDestructure(factory, value)
    case YearMonthDestructuringPolicy => FormatPolicies.DestructureYearMonth(text, value)
  }

  /** No two entries bind the same type. */
  ghost predicate DistinctBoundTypes(entries: seq<Entry>) {
    forall i, j :: 0 <= i < j < |entries| ==> entries[i].BoundType() != entries[j].BoundType()
  }

  /** With distinct bound types, at most one entry claims any value. */
  lemma AtMostOneClaimant(entries: seq<Entry>, value: Value, i: nat, j: nat)
    requires DistinctBoundTypes(entries)
    requires i < |entries| && j < |entries|
    requires Claims(entries[i], value) && Claims(entries[j], value)
    ensures i == j
  {
  }

  /** Looks for the entry that claims a value, scanning in registration order.
      The result is the first claimant; with distinct bound types it is the
      only one. */
  method FindClaimant(entries: seq<Entry>, value: Value) returns (found: Option<nat>)
    ensures found.Some? ==> found.value < |entries| && Claims(entries[found.value], value)
    ensures found.Some? ==> forall j :: 0 <= j < found.value ==> !Claims(entries[j], value)
    ensures found.Some? && DistinctBoundTypes(entries) ==>
              forall j :: 0 <= j < |entries| && j != found.value ==> !Claims(entries[j], value)
    ensures found.None? <==> forall j :: 0 <= j < |entries| ==> !Claims(entries[j], value)
  {
    var i := 0;
    while i < |entries|
      invariant 0 <= i <= |entries|
      invariant forall j :: 0 <= j < i ==> !Claims(entries[j], value)
    {
      if Claims(entries[i], value) {
        return Some(i);
      }
      i := i + 1;
    }
    return None;
  }

  /** The position of each type in the full façade's registration order. */
  function Rank(t: TypeTag): nat {
    match t
    case InstantType => 0
    case OffsetType => 1
    case CalendarSystemType => 2
    case LocalDateTimeType => 3
    case LocalDateType => 4
    case LocalTimeType => 5
    case OffsetDateType => 6
    case OffsetDateTimeType => 7
    case OffsetTimeType => 8
    case DateTimeZoneType => 9
    case ZonedDateTimeType => 10
    case DurationType => 11
    case PeriodType => 12
    case IntervalType => 13
    case YearMonthType => 14
  }

  /** Distinct types have distinct ranks. */
  lemma RankDeterminesType(a: TypeTag, b: TypeTag)
    requires Rank(a) == Rank(b)
    ensures a == b
  {
  }

  /** Each entry binds a type that comes strictly later than the previous one's. */
  ghost predicate RanksIncrease(entries: seq<Entry>) {
    forall i :: 0 < i < |entries| ==> Rank(entries[i - 1].BoundType()) < Rank(entries[i].BoundType())
  }

  lemma {:induction false} RanksIncreaseAcross(entries: seq<Entry>, i: nat, j: nat)
    requires RanksIncrease(entries)
    requires i < j < |entries|
    ensures Rank(entries[i].BoundType()) < Rank(entries[j].BoundType())
    decreases j - i
  {
    if i + 1 < j {
      RanksIncreaseAcross(entries, i, j - 1);
    }
  }

  /** Entries listed in increasing type order bind distinct types. */
  lemma IncreasingRanksAreDistinct(entries: seq<Entry>)
    requires RanksIncrease(entries)
    ensures DistinctBoundTypes(entries)
  {
    forall i, j | 0 <= i < j < |entries|
      ensures entries[i].BoundType() != entries[j].BoundType()
    {
      RanksIncreaseAcross(entries, i, j);
    }
  }

  /** The logger configuration, as far as destructuring goes: the object's
      identity and its registrations in order. */
  datatype LoggerConfiguration = LoggerConfiguration(identity: nat, destructuring: seq<Entry>) {
    /** `Destructure.With(policy)`: appends a policy and returns the same configuration. */
    function DestructureWith(kind: PolicyKind): (c: LoggerConfiguration)
      ensures c.identity == identity && c.destructuring == destructuring + [With(kind)]
    {
      this.(destructuring := destructuring + [With(kind)])
    }

    /** `Destructure.AsScalar<T>()`: appends a scalar marker and returns the same configuration. */
    function DestructureAsScalar(t: TypeTag): (c: LoggerConfiguration)
      ensures c.identity == identity && c.destructuring == destructuring + [AsScalar(t)]
    {
      this.(destructuring := destructuring + [AsScalar(t)])
    }
  }
}
