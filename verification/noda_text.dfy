/** Noda Time's text patterns. The library's formatting is outside this model:
    each fixed pattern is an uninterpreted pure function supplied by the caller,
    so every property proved here holds whatever those functions are. */
module NodaText {
  import opened Wrappers
  import opened NodaTime

  datatype Culture = InvariantCulture | NamedCulture(name: string)

  /** A zoned date-time pattern object: its pattern text, its culture and the
      zone provider it was created with (null is allowed; such a pattern can
      still format). */
  datatype ZonedDateTimePattern = ZonedDateTimePattern(
    patternText: string, culture: Culture, zoneProvider: Option<ZoneProvider>)

  /** `ZonedDateTimePattern.CreateWithInvariantCulture(patternText, provider)`. */
  function CreateWithInvariantCulture(patternText: string, provider: Option<ZoneProvider>): (p: ZonedDateTimePattern)
    ensures p.patternText == patternText && p.culture == InvariantCulture && p.zoneProvider == provider
  {
    ZonedDateTimePattern(patternText, InvariantCulture, provider)
  }

  /** The `Format` methods of the library's predefined patterns, and of a
      zoned date-time pattern object. */
  datatype Patterns = Patterns(
    instantGeneral: Instant -> string,
    offsetGeneralInvariant: Offset -> string,
    localDateIso: LocalDate -> string,
    localDateTimeExtendedIso: LocalDateTime -> string,
    offsetDateGeneralIso: OffsetDate -> string,
    offsetDateTimeRfc3339: OffsetDateTime -> string,
    periodRoundtrip: Period -> string,
    yearMonthIso: YearMonth -> string,
    formatZoned: (ZonedDateTimePattern, ZonedDateTime) -> string)
}
