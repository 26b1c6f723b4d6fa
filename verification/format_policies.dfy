/** The eight policies that only bind a value type to one of the library's
    predefined patterns, with the ISO gate where the pattern leaves the
    calendar out. Each `...Policy` function builds the policy object; each
    `Destructure...` function is that policy's `TryDestructure`. */
module FormatPolicies {
  import opened Wrappers
  import opened NodaTime
  import opened NodaText
  import opened LogEvents
  import opened DestructuringPolicyBase

  // Instant: the general pattern, no validator.

  function InstantPolicy(text: Patterns): Policy<Instant>
  {
    Policy(InstantType.Name(), (v: Value) => if v.InstantValue? then Some(v.instant) else None, text.instantGeneral, None)
  }

  function DestructureInstant(text: Patterns, value: Value): (r: Destructuring)
    ensures r.NotApplicable? <==> !value.InstantValue?
    ensures value.InstantValue? ==> r == Destructured(ScalarValue(text.instantGeneral(value.instant)))
  {
    TryDestructure(InstantPolicy(text), value)
  }

  // Offset: the general invariant pattern, no validator.

  function OffsetPolicy(text: Patterns): Policy<Offset>
  {
    Policy(OffsetType.Name(), (v: Value) => if v.OffsetValue? then Some(v.offset) else None, text.offsetGeneralInvariant, None)
  }

  function DestructureOffset(text: Patterns, value: Value): (r: Destructuring)
    ensures r.NotApplicable? <==> !value.OffsetValue?
    ensures value.OffsetValue? ==> r == Destructured(ScalarValue(text.offsetGeneralInvariant(value.offset)))
  {
    TryDestructure(OffsetPolicy(text), value)
  }

  // LocalDateTime: the extended ISO pattern, ISO gate on the value's calendar.

  function LocalDateTimePolicy(text: Patterns): Policy<LocalDateTime>
  {
    IsoGatedPolicy(LocalDateTimeType.Name(),
                   (v: Value) => if v.LocalDateTimeValue? then Some(v.localDateTime) else None,
                   text.localDateTimeExtendedIso,
                   (x: LocalDateTime) => x.Calendar())
  }

  function DestructureLocalDateTime(text: Patterns, value: Value): (r: Destructuring)
    ensures r.NotApplicable? <==> !value.LocalDateTimeValue?
    ensures value.LocalDateTimeValue? && value.localDateTime.Calendar() == Iso ==>
              r == Destructured(ScalarValue(text.localDateTimeExtendedIso(value.localDateTime)))
    ensures value.LocalDateTimeValue? && value.localDateTime.Calendar() != Iso ==>
              r == Threw(IsoGateError("LocalDateTime"))
  {
    TryDestructure(LocalDateTimePolicy(text), value)
  }

  // LocalDate: the ISO pattern, ISO gate on the value's calendar.

  function LocalDatePolicy(text: Patterns): Policy<LocalDate>
  {
    IsoGatedPolicy(LocalDateType.Name(),
                   (v: Value) => if v.LocalDateValue? then Some(v.localDate) else None,
                   text.localDateIso,
                   (x: LocalDate) => x.Calendar())
  }

  function DestructureLocalDate(text: Patterns, value: Value): (r: Destructuring)
    ensures r.NotApplicable? <==> !value.LocalDateValue?
    ensures value.LocalDateValue? && value.localDate.Calendar() == Iso ==>
              r == Destructured(ScalarValue(text.localDateIso(value.localDate)))
    ensures value.LocalDateValue? && value.localDate.Calendar() != Iso ==>
              r == Threw(IsoGateError("LocalDate"))
  {
    TryDestructure(LocalDatePolicy(text), value)
  }

  // OffsetDate: the general ISO pattern, ISO gate on the value's calendar.

  function OffsetDatePolicy(text: Patterns): Policy<OffsetDate>
  {
    IsoGatedPolicy(OffsetDateType.Name(),
                   (v: Value) => if v.OffsetDateValue? then Some(v.offsetDate) else None,
                   text.offsetDateGeneralIso,
                   (x: OffsetDate) => x.Calendar())
  }

  function DestructureOffsetDate(text: Patterns, value: Value): (r: Destructuring)
    ensures r.NotApplicable? <==> !value.OffsetDateValue?
    ensures value.OffsetDateValue? && value.offsetDate.Calendar() == Iso ==>
              r == Destructured(ScalarValue(text.offsetDateGeneralIso(value.offsetDate)))
    ensures value.OffsetDateValue? && value.offsetDate.Calendar() != Iso ==>
              r == Threw(IsoGateError("OffsetDate"))
  {
    TryDestructure(OffsetDatePolicy(text), value)
  }

  // OffsetDateTime: the RFC 3339 pattern, ISO gate on the value's calendar.

  function OffsetDateTimePolicy(text: Patterns): Policy<OffsetDateTime>
  {
    IsoGatedPolicy(OffsetDateTimeType.Name(),
                   (v: Value) => if v.OffsetDateTimeValue? then Some(v.offsetDateTime) else None,
                   text.offsetDateTimeRfc3339,
                   (x: OffsetDateTime) => x.Calendar())
  }

  function DestructureOffsetDateTime(text: Patterns, value: Value): (r: Destructuring)
    ensures r.NotApplicable? <==> !value.OffsetDateTimeValue?
    ensures value.OffsetDateTimeValue? && value.offsetDateTime.Calendar() == Iso ==>
              r == Destructured(ScalarValue(text.offsetDateTimeRfc3339(value.offsetDateTime)))
    ensures value.OffsetDateTimeValue? && value.offsetDateTime.Calendar() != Iso ==>
              r == Threw(IsoGateError("OffsetDateTime"))
  {
    TryDestructure(OffsetDateTimePolicy(text), value)
  }

  // Period: the round-trip pattern, no validator.

  function PeriodPolicy(text: Patterns): Policy<Period>
  {
    Policy(PeriodType.Name(), (v: Value) => if v.PeriodValue? then Some(v.period) else None, text.periodRoundtrip, None)
  }

  function DestructurePeriod(text: Patterns, value: Value): (r: Destructuring)
    ensures r.NotApplicable? <==> !value.PeriodValue?
    ensures value.PeriodValue? ==> r == Destructured(ScalarValue(text.periodRoundtrip(value.period)))
  {
    TryDestructure(PeriodPolicy(text), value)
  }

  // YearMonth: the ISO pattern, ISO gate on the value's calendar.

  function YearMonthPolicy(text: Patterns): Policy<YearMonth>
  {
    IsoGatedPolicy(YearMonthType.Name(),
                   (v: Value) => if v.YearMonthValue? then Some(v.yearMonth) else None,
                   text.yearMonthIso,
                   (x: YearMonth) => x.Calendar())
  }

  function DestructureYearMonth(text: Patterns, value: Value): (r: Destructuring)
    ensures r.NotApplicable? <==> !value.YearMonthValue?
    ensures value.YearMonthValue? && value.yearMonth.Calendar() == Iso ==>
              r == Destructured(ScalarValue(text.yearMonthIso(value.yearMonth)))
    ensures value.YearMonthValue? && value.yearMonth.Calendar() != Iso ==>
              r == Threw(IsoGateError("YearMonth"))
  {
    TryDestructure(YearMonthPolicy(text), value)
  }
}
