/** The second registration façade: a `ConfigureForNodaTime` that registers
    twelve entries directly, without the per-type operations. */
module Extensions {
  import opened Wrappers
  import opened Exceptions
  import opened NodaTime
  import opened Registry
  import LoggerConfigurationNodaTimeExtensions

  /** The twelve entries a successful call appends, in order. */
  function ExtensionEntries(provider: ZoneProvider): seq<Registry.Entry>
  {
    [With(InstantDestructuringPolicy), AsScalar(OffsetType), AsScalar(CalendarSystemType),
     With(LocalDateTimeDestructuringPolicy), With(LocalDateDestructuringPolicy),
     With(LocalTimeDestructuringPolicy), With(OffsetDateTimeDestructuringPolicy),
     With(DateTimeZoneDestructuringPolicy), With(ZonedDateTimeDestructuringPolicy(Some(provider))),
     With(DurationDestructuringPolicy), With(PeriodDestructuringPolicy),
     With(IntervalDestructuringPolicy)]
  }

  /** `ConfigureForNodaTime(lc, provider)`: a null configuration, then a null
      provider, throws before anything is registered; otherwise twelve entries
      are appended in their fixed order and the same configuration is returned. */
  function ConfigureForNodaTime(lc: Option<LoggerConfiguration>, provider: Option<ZoneProvider>): (r: Result<LoggerConfiguration, Exception>)
    ensures lc.None? ==> r == Failure(ArgumentNullException("lc"))
    ensures lc.Some? && provider.None? ==> r == Failure(ArgumentNullException("provider"))
    ensures lc.Some? && provider.Some? ==>
              && r.Success?
              && r.value.identity == lc.value.identity
              && r.value.destructuring == lc.value.destructuring + ExtensionEntries(provider.value)
  {
    if lc.None? then Failure(ArgumentNullException("lc"))
    else if provider.None? then Failure(ArgumentNullException("provider"))
    else
      Success(lc.value
        .DestructureWith(InstantDestructuringPolicy)
        .DestructureAsScalar(OffsetType)
        .DestructureAsScalar(CalendarSystemType)
        .DestructureWith(LocalDateTimeDestructuringPolicy)
        .DestructureWith(LocalDateDestructuringPolicy)
        .DestructureWith(LocalTimeDestructuringPolicy)
        .DestructureWith(OffsetDateTimeDestructuringPolicy)
        .DestructureWith(DateTimeZoneDestructuringPolicy)
        .DestructureWith(ZonedDateTimeDestructuringPolicy(provider))
        .DestructureWith(DurationDestructuringPolicy)
        .DestructureWith(PeriodDestructuringPolicy)
        .DestructureWith(IntervalDestructuringPolicy))
  }

  /** The types an entry list binds. */
  function BoundTypes(entries: seq<Registry.Entry>): set<TypeTag>
  {
    set e | e in entries :: e.BoundType()
  }

  /** The twelve entries bind distinct types; offset and calendar system are
      scalar markers, and the offset policy is not registered. */
  lemma ExtensionEntriesWellFormed(provider: ZoneProvider)
    ensures |ExtensionEntries(provider)| == 12
    ensures DistinctBoundTypes(ExtensionEntries(provider))
    ensures forall e :: e in ExtensionEntries(provider) ==>
              (e.AsScalar? <==> e.BoundType() in {OffsetType, CalendarSystemType})
    ensures With(OffsetDestructuringPolicy) !in ExtensionEntries(provider)
  {
    ExtensionEntriesInTypeOrder(provider);
    IncreasingRanksAreDistinct(ExtensionEntries(provider));
    ExtensionScalarMarkers(provider);
  }

  /** The position in the full façade's order of this façade's `i`-th entry. */
  function FullPosition(i: nat): nat {
    if i < 6 then i else if i == 6 then 7 else i + 2
  }

  lemma ExtensionEntriesInTypeOrder(provider: ZoneProvider)
    ensures |ExtensionEntries(provider)| == 12
    ensures forall i :: 0 <= i < 12 ==> Rank(ExtensionEntries(provider)[i].BoundType()) == FullPosition(i)
    ensures RanksIncrease(ExtensionEntries(provider))
  {
    var es := ExtensionEntries(provider);
    assert forall i :: 0 <= i < 12 ==> Rank(es[i].BoundType()) == FullPosition(i);
  }

  lemma ExtensionScalarMarkers(provider: ZoneProvider)
    ensures forall e :: e in ExtensionEntries(provider) ==>
              (e.AsScalar? <==> e.BoundType() in {OffsetType, CalendarSystemType})
    ensures With(OffsetDestructuringPolicy) !in ExtensionEntries(provider)
  {
  }

  /** The three types this façade leaves out. */
  predicate LeftOut(t: TypeTag) {
    t == OffsetDateType || t == OffsetTimeType || t == YearMonthType
  }

  /** This façade's `i`-th entry is the full façade's entry at `FullPosition(i)`. */
  lemma ExtensionEntryInFull(provider: ZoneProvider, i: nat)
    requires i < 12
    ensures FullPosition(i) < 15
    ensures ExtensionEntries(provider)[i] == LoggerConfigurationNodaTimeExtensions.FullEntries(provider)[FullPosition(i)]
  {
  }

  /** The full façade binds every type. */
  lemma FullBindsType(provider: ZoneProvider, t: TypeTag)
    ensures t in BoundTypes(LoggerConfigurationNodaTimeExtensions.FullEntries(provider))
  {
    var full := LoggerConfigurationNodaTimeExtensions.FullEntries(provider);
    LoggerConfigurationNodaTimeExtensions.FullEntryAtRank(provider, t);
    assert full[Rank(t)] in full;
  }

  /** This façade binds a type exactly when it is not one of the three it
      leaves out. */
  lemma ExtensionsBindType(provider: ZoneProvider, t: TypeTag)
    ensures t in BoundTypes(ExtensionEntries(provider)) <==> !LeftOut(t)
  {
    var ext := ExtensionEntries(provider);
    ExtensionEntriesInTypeOrder(provider);
    if !LeftOut(t) {
      var k := if Rank(t) < 6 then Rank(t) else if Rank(t) < 8 then Rank(t) - 1 else Rank(t) - 2;
      RankDeterminesType(ext[k].BoundType(), t);
      assert ext[k] in ext;
    } else {
      forall e | e in ext ensures e.BoundType() != t {
        var i :| 0 <= i < |ext| && ext[i] == e;
        assert Rank(e.BoundType()) == FullPosition(i);
      }
    }
  }

  /** This façade supports strictly fewer types than the other one: it leaves
      out exactly offset date, offset time and year-month, and every entry it
      does make is one the other façade makes too. */
  lemma ExtensionsIsStrictSubset(provider: ZoneProvider)
    ensures forall e :: e in ExtensionEntries(provider) ==> e in LoggerConfigurationNodaTimeExtensions.FullEntries(provider)
    ensures BoundTypes(ExtensionEntries(provider)) < BoundTypes(LoggerConfigurationNodaTimeExtensions.FullEntries(provider))
    ensures BoundTypes(LoggerConfigurationNodaTimeExtensions.FullEntries(provider)) - BoundTypes(ExtensionEntries(provider))
            == {OffsetDateType, OffsetTimeType, YearMonthType}
  {
    var ext := ExtensionEntries(provider);
    var full := LoggerConfigurationNodaTimeExtensions.FullEntries(provider);
    forall e | e in ext ensures e in full {
      var i :| 0 <= i < |ext| && ext[i] == e;
      ExtensionEntryInFull(provider, i);
    }
    forall t | true
      ensures t in BoundTypes(full) && (t in BoundTypes(ext) <==> !LeftOut(t))
    {
      FullBindsType(provider, t);
      ExtensionsBindType(provider, t);
    }
    assert OffsetDateType !in BoundTypes(ext);
  }
}
