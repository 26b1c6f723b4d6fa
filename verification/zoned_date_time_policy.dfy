/** The zoned date-time policy. Unlike the fixed-pattern policies, its pattern
    object is created once, when the policy is constructed, from a zone
    provider; the ISO gate applies as for the other calendar-bearing types. */
module ZonedDateTimePolicy {
  import opened Wrappers
  import opened NodaTime
  import opened NodaText
  import opened LogEvents
  import opened DestructuringPolicyBase

  /** Year-month-day, 'T', time with up to nine fractional digits, the offset
      in general form, then the zone id. */
  const PatternText: string := "uuuu'-'MM'-'dd'T'HH':'mm':'ss;FFFFFFFFFo<G> z"

  /** A constructed policy holds its pattern object and nothing else. */
  datatype ZonedDateTimeDestructuringPolicy = ZonedDateTimeDestructuringPolicy(pattern: ZonedDateTimePattern)

  /** The constructor: builds the invariant-culture pattern from the fixed
      pattern text and the given provider. A null provider is not rejected. */
  function Create(provider: Option<ZoneProvider>): (p: ZonedDateTimeDestructuringPolicy)
    ensures p.pattern.patternText == PatternText
    ensures p.pattern.culture == InvariantCulture
    ensures p.pattern.zoneProvider == provider
  {
    ZonedDateTimeDestructuringPolicy(CreateWithInvariantCulture(PatternText, provider))
  }

  function AsPolicy(p: ZonedDateTimeDestructuringPolicy, text: Patterns): Policy<ZonedDateTime>
  {
    IsoGatedPolicy(ZonedDateTimeType.Name(),
                   (v: Value) => if v.ZonedDateTimeValue? then Some(v.zonedDateTime) else None,
                   (z: ZonedDateTime) => text.formatZoned(p.pattern, z),
                   (x: ZonedDateTime) => x.Calendar())
  }

  /** `TryDestructure`: an ISO zoned date-time is formatted with the pattern
      object captured at construction; any other calendar throws the ISO gate's
      argument exception; other values are declined. */
  function TryDestructure(p: ZonedDateTimeDestructuringPolicy, text: Patterns, value: Value): (r: Destructuring)
    ensures r.NotApplicable? <==> !value.ZonedDateTimeValue?
    ensures value.ZonedDateTimeValue? && value.zonedDateTime.Calendar() == Iso ==>
              r == Destructured(ScalarValue(text.formatZoned(p.pattern, value.zonedDateTime)))
    ensures value.ZonedDateTimeValue? && value.zonedDateTime.Calendar() != Iso ==>
              r == Threw(IsoGateError("ZonedDateTime"))
  {
    DestructuringPolicyBase.TryDestructure(AsPolicy(p, text), value)
  }
}
