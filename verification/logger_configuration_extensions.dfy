/** The fluent registration façade: one `With...` operation per supported type,
    and `ConfigureForNodaTime`, which checks its arguments and then chains all
    fifteen of them. */
module LoggerConfigurationNodaTimeExtensions {
  import opened Wrappers
  import opened Exceptions
  import opened NodaTime
  import opened NodaText
  import opened LogEvents
  import opened Registry

  /** The per-type registration operations, `WithInstant` ... `WithYearMonth`. */
  datatype Registration =
    | WithInstant
    | WithOffset
    | WithCalendarSystem
    | WithLocalDateTime
    | WithLocalDate
    | WithLocalTime
    | WithOffsetDate
    | WithOffsetDateTime
    | WithOffsetTime
    | WithDateTimeZone
    | WithZonedDateTime(provider: Option<ZoneProvider>)
    | WithDuration
    | WithPeriod
    | WithInterval
    | WithYearMonth
  {
    /** The Noda Time type the operation adds support for. */
    function Supports(): TypeTag {
      match this
      case WithInstant => InstantType
      case WithOffset => OffsetType
      case WithCalendarSystem => CalendarSystemType
      case WithLocalDateTime => LocalDateTimeType
      case WithLocalDate => LocalDateType
      case WithLocalTime => LocalTimeType
      case WithOffsetDate => OffsetDateType
      case WithOffsetDateTime => OffsetDateTimeType
      case WithOffsetTime => OffsetTimeType
      case WithDateTimeZone => DateTimeZoneType
      case WithZonedDateTime(_) => ZonedDateTimeType
      case WithDuration => DurationType
      case WithPeriod => PeriodType
      case WithInterval => IntervalType
      case WithYearMonth => YearMonthType
    }

    /** The registration the operation makes. Offset and calendar system are
        made scalars; every other type gets its policy, and the zoned
        date-time policy is built from the operation's provider. */
    function Entry(): (e: Registry.Entry)
      ensures e.BoundType() == Supports()
      ensures e.AsScalar? <==> (WithOffset? || WithCalendarSystem?)
      ensures e.With? ==> e.policy != OffsetDestructuringPolicy
      ensures WithZonedDateTime? ==> e == With(ZonedDateTimeDestructuringPolicy(provider))
    {
      match this
      case WithInstant => With(InstantDestructuringPolicy)
      case WithOffset => AsScalar(OffsetType)
      case WithCalendarSystem => AsScalar(CalendarSystemType)
      case WithLocalDateTime => With(LocalDateTimeDestructuringPolicy)
      case WithLocalDate => With(LocalDateDestructuringPolicy)
      case WithLocalTime => With(LocalTimeDestructuringPolicy)
      case WithOffsetDate => With(OffsetDateDestructuringPolicy)
      case WithOffsetDateTime => With(OffsetDateTimeDestructuringPolicy)
      case WithOffsetTime => With(OffsetTimeDestructuringPolicy)
      case WithDateTimeZone => With(DateTimeZoneDestructuringPolicy)
      case WithZonedDateTime(provider) => With(ZonedDateTimeDestructuringPolicy(provider))
      case WithDuration => With(DurationDestructuringPolicy)
      case WithPeriod => With(PeriodDestructuringPolicy)
      case WithInterval => With(IntervalDestructuringPolicy)
      case WithYearMonth => With(YearMonthDestructuringPolicy)
    }
  }

  /** Calls one `With...` operation on a destructuring configuration `ldc`
      (null when `None`). A null `ldc` throws before anything is registered;
      otherwise the operation's entry is appended and the same configuration
      is returned. Only `ldc` is checked: a null zone provider is passed on. */
  function Register(ldc: Option<LoggerConfiguration>, registration: Registration): (r: Result<LoggerConfiguration, Exception>)
    ensures r.Failure? <==> ldc.None?
    ensures r.Failure? ==> r.error == ArgumentNullException("ldc")
    ensures r.Success? ==> r.value.identity == ldc.value.identity
    ensures r.Success? ==> r.value.destructuring == ldc.value.destructuring + [registration.Entry()]
  {
    if ldc.None? then Failure(ArgumentNullException("ldc"))
    else
      var c := ldc.value;
      var e := registration.Entry();
      Success(if e.With? then c.DestructureWith(e.policy) else c.DestructureAsScalar(e.scalarType))
  }

  /** The entries a list of operations appends, in order. */
  function EntriesOf(registrations: seq<Registration>): (es: seq<Registry.Entry>)
    ensures |es| == |registrations|
    ensures forall k :: 0 <= k < |registrations| ==> es[k] == registrations[k].Entry()
  {
    seq(|registrations|, k requires 0 <= k < |registrations| => registrations[k].Entry())
  }

  /** `c.Destructure.WithA().Destructure.WithB()...`: calls the operations one
      after another on a configuration, each on the configuration the previous
      one returned. */
  function Chain(c: LoggerConfiguration, registrations: seq<Registration>): (r: LoggerConfiguration)
    ensures r.identity == c.identity
    ensures r.destructuring == c.destructuring + EntriesOf(registrations)
    decreases |registrations|
  {
    if |registrations| == 0 then c
    else
      var next := Register(Some(c), registrations[0]).value;
      var rest := Chain(next, registrations[1..]);
      EntriesOfSplit(registrations);
      assert rest.destructuring
          == (c.destructuring + [registrations[0].Entry()]) + EntriesOf(registrations[1..])
          == c.destructuring + ([registrations[0].Entry()] + EntriesOf(registrations[1..]));
      rest
  }

  lemma EntriesOfSplit(registrations: seq<Registration>)
    requires |registrations| > 0
    ensures EntriesOf(registrations) == [registrations[0].Entry()] + EntriesOf(registrations[1..])
  {
    var whole := EntriesOf(registrations);
    var split := [registrations[0].Entry()] + EntriesOf(registrations[1..]);
    assert |whole| == |split|;
    forall k | 0 <= k < |whole| ensures whole[k] == split[k] {
      if k > 0 {
        assert split[k] == EntriesOf(registrations[1..])[k - 1];
      }
    }
  }

  /** The operations `ConfigureForNodaTime` chains, in order. */
  function AllRegistrations(provider: ZoneProvider): seq<Registration>
  {
    [WithInstant, WithOffset, WithCalendarSystem, WithLocalDateTime, WithLocalDate,
     WithLocalTime, WithOffsetDate, WithOffsetDateTime, WithOffsetTime, WithDateTimeZone,
     WithZonedDateTime(Some(provider)), WithDuration, WithPeriod, WithInterval, WithYearMonth]
  }

  /** The fifteen entries a successful `ConfigureForNodaTime` appends. */
  function FullEntries(provider: ZoneProvider): seq<Registry.Entry>
  {
    [With(InstantDestructuringPolicy), AsScalar(OffsetType), AsScalar(CalendarSystemType),
     With(LocalDateTimeDestructuringPolicy), With(LocalDateDestructuringPolicy),
     With(LocalTimeDestructuringPolicy), With(OffsetDateDestructuringPolicy),
     With(OffsetDateTimeDestructuringPolicy), With(OffsetTimeDestructuringPolicy),
     With(DateTimeZoneDestructuringPolicy), With(ZonedDateTimeDestructuringPolicy(Some(provider))),
     With(DurationDestructuringPolicy), With(PeriodDestructuringPolicy),
     With(IntervalDestructuringPolicy), With(YearMonthDestructuringPolicy)]
  }

  /** `ConfigureForNodaTime(lc, provider)`: a null configuration, then a null
      provider, throws before anything is registered; otherwise the fifteen
      entries are appended in their fixed order and the same configuration is
      returned for chaining. */
  function ConfigureForNodaTime(lc: Option<LoggerConfiguration>, provider: Option<ZoneProvider>): (r: Result<LoggerConfiguration, Exception>)
    ensures lc.None? ==> r == Failure(ArgumentNullException("lc"))
    ensures lc.Some? && provider.None? ==> r == Failure(ArgumentNullException("provider"))
    ensures lc.Some? && provider.Some? ==>
              && r.Success?
              && r.value.identity == lc.value.identity
              && r.value.destructuring == lc.value.destructuring + FullEntries(provider.value)
  {
    if lc.None? then Failure(ArgumentNullException("lc"))
    else if provider.None? then Failure(ArgumentNullException("provider"))
    else
      var r := Chain(lc.value, AllRegistrations(provider.value));
      AllRegistrationsMakeFullEntries(provider.value);
      Success(r)
  }

  lemma AllRegistrationsMakeFullEntries(provider: ZoneProvider)
    ensures EntriesOf(AllRegistrations(provider)) == FullEntries(provider)
  {
    var es := EntriesOf(AllRegistrations(provider));
    forall k | 0 <= k < 15 ensures es[k] == FullEntries(provider)[k] {
      RegistrationMakesFullEntry(provider, k);
    }
  }

  lemma RegistrationMakesFullEntry(provider: ZoneProvider, k: nat)
    requires k < 15
    ensures AllRegistrations(provider)[k].Entry() == FullEntries(provider)[k]
  {
  }

  /** The full façade binds fifteen distinct types, so at most one of its
      entries claims any value. */
  lemma FullEntriesBindDistinctTypes(provider: ZoneProvider)
    ensures |FullEntries(provider)| == 15
    ensures DistinctBoundTypes(FullEntries(provider))
  {
    var es := FullEntries(provider);
    assert forall i :: 0 <= i < |es| ==> Rank(es[i].BoundType()) == i;
    IncreasingRanksAreDistinct(es);
  }

  /** Every one of the fifteen known types is bound by some entry of the full
      façade; with distinctness, by exactly one. */
  lemma FullEntriesCoverEveryType(provider: ZoneProvider, t: TypeTag)
    ensures exists k :: 0 <= k < |FullEntries(provider)| && FullEntries(provider)[k].BoundType() == t
  {
    FullEntryAtRank(provider, t);
  }

  /** The full façade lists its entries in type order. */
  lemma FullEntryAtRank(provider: ZoneProvider, t: TypeTag)
    ensures Rank(t) < |FullEntries(provider)| && FullEntries(provider)[Rank(t)].BoundType() == t
  {
  }

  /** Offset and calendar system are registered as scalar markers and nothing
      else is; the offset policy itself is never registered. */
  lemma FullEntriesScalarMarkers(provider: ZoneProvider)
    ensures forall e :: e in FullEntries(provider) ==>
              (e.AsScalar? <==> e.BoundType() in {OffsetType, CalendarSystemType})
    ensures With(OffsetDestructuringPolicy) !in FullEntries(provider)
  {
  }

  /** Offered to the full façade's policies, a value is accepted (formatted or
      rejected with an exception) by at most one of them. */
  lemma AtMostOnePolicyAccepts(provider: ZoneProvider, text: Patterns, factory: Instant -> LogEventPropertyValue,
                               value: Value, i: nat, j: nat)
    requires i < 15 && j < 15
    requires FullEntries(provider)[i].With? && FullEntries(provider)[i].policy.Modelled()
    requires FullEntries(provider)[j].With? && FullEntries(provider)[j].policy.Modelled()
    requires !Registry.TryDestructure(FullEntries(provider)[i].policy, text, factory, value).NotApplicable?
    requires !Registry.TryDestructure(FullEntries(provider)[j].policy, text, factory, value).NotApplicable?
    ensures i == j
  {
    FullEntriesBindDistinctTypes(provider);
    AtMostOneClaimant(FullEntries(provider), value, i, j);
  }
}
