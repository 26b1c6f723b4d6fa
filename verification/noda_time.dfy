/** The value types of the Noda Time library that the destructuring policies
    recognise. Each type keeps just enough structure to tell values apart and
    to read its calendar system; the library's arithmetic is not modelled. */
module NodaTime {
  import opened Wrappers

  /** A calendar system. `Iso` is the library's single ISO calendar instance;
      every other calendar (Julian, Coptic, ...) is identified by its id. */
  datatype CalendarSystem = Iso | NonIso(id: string)

  datatype Instant = Instant(nanosecondsSinceEpoch: int)

  datatype Offset = Offset(seconds: int)

  datatype LocalDate = LocalDate(calendar: CalendarSystem, year: int, month: int, day: int) {
    function Calendar(): CalendarSystem { calendar }
  }

  datatype LocalTime = LocalTime(nanosecondOfDay: int)

  datatype LocalDateTime = LocalDateTime(date: LocalDate, time: LocalTime) {
    function Calendar(): CalendarSystem { date.Calendar() }
  }

  datatype OffsetDate = OffsetDate(date: LocalDate, offset: Offset) {
    function Calendar(): CalendarSystem { date.Calendar() }
  }

  datatype OffsetTime = OffsetTime(time: LocalTime, offset: Offset)

  datatype OffsetDateTime = OffsetDateTime(dateTime: LocalDateTime, offset: Offset) {
    function Calendar(): CalendarSystem { dateTime.Calendar() }
  }

  /** A time zone: its identifier (an IANA name such as "Europe/London") and
      the bounds of the offsets its rules use. */
  datatype DateTimeZone = DateTimeZone(id: string, minOffset: Offset, maxOffset: Offset)

  datatype ZonedDateTime = ZonedDateTime(offsetDateTime: OffsetDateTime, zone: DateTimeZone) {
    function Calendar(): CalendarSystem { offsetDateTime.Calendar() }
  }

  datatype Duration = Duration(nanoseconds: int)

  datatype Period = Period(
    years: int, months: int, weeks: int, days: int,
    hours: int, minutes: int, seconds: int,
    milliseconds: int, ticks: int, nanoseconds: int)

  datatype YearMonth = YearMonth(calendar: CalendarSystem, year: int, month: int) {
    function Calendar(): CalendarSystem { calendar }
  }

  /** An interval whose start and end may each be absent (unbounded). */
  datatype Interval = Interval(start: Option<Instant>, end: Option<Instant>) {
    predicate HasStart() { start.Some? }
    predicate HasEnd() { end.Some? }
  }

  /** A reference to an external time-zone data provider; only its identity matters. */
  datatype ZoneProvider = ZoneProvider(versionId: string)

  /** The fifteen Noda Time types the registration façades know about, in the
      order the full façade registers them. */
  datatype TypeTag =
    | InstantType | OffsetType | CalendarSystemType | LocalDateTimeType | LocalDateType
    | LocalTimeType | OffsetDateType | OffsetDateTimeType | OffsetTimeType | DateTimeZoneType
    | ZonedDateTimeType | DurationType | PeriodType | IntervalType | YearMonthType
  {
    /** The CLR type's short name, `typeof(T).Name`. */
    function Name(): string {
      match this
      case InstantType => "Instant"
      case OffsetType => "Offset"
      case CalendarSystemType => "CalendarSystem"
      case LocalDateTimeType => "LocalDateTime"
      case LocalDateType => "LocalDate"
      case LocalTimeType => "LocalTime"
      case OffsetDateType => "OffsetDate"
      case OffsetDateTimeType => "OffsetDateTime"
      case OffsetTimeType => "OffsetTime"
      case DateTimeZoneType => "DateTimeZone"
      case ZonedDateTimeType => "ZonedDateTime"
      case DurationType => "Duration"
      case PeriodType => "Period"
      case IntervalType => "Interval"
      case YearMonthType => "YearMonth"
    }
  }

  /** Any value a log call may ask to destructure: one of the Noda Time types,
      or an object of some other type. */
  datatype Value =
    | InstantValue(instant: Instant)
    | OffsetValue(offset: Offset)
    | CalendarSystemValue(calendarSystem: CalendarSystem)
    | LocalDateTimeValue(localDateTime: LocalDateTime)
    | LocalDateValue(localDate: LocalDate)
    | LocalTimeValue(localTime: LocalTime)
    | OffsetDateValue(offsetDate: OffsetDate)
    | OffsetDateTimeValue(offsetDateTime: OffsetDateTime)
    | OffsetTimeValue(offsetTime: OffsetTime)
    | DateTimeZoneValue(zone: DateTimeZone)
    | ZonedDateTimeValue(zonedDateTime: ZonedDateTime)
    | DurationValue(duration: Duration)
    | PeriodValue(period: Period)
    | IntervalValue(interval: Interval)
    | YearMonthValue(yearMonth: YearMonth)
    | OtherValue(typeName: string)
  {
    /** The value's runtime type, if it is one of the Noda Time types. */
    function Type(): Option<TypeTag> {
      match this
      case InstantValue(_) => Some(InstantType)
      case OffsetValue(_) => Some(OffsetType)
      case CalendarSystemValue(_) => Some(CalendarSystemType)
      case LocalDateTimeValue(_) => Some(LocalDateTimeType)
      case LocalDateValue(_) => Some(LocalDateType)
      case LocalTimeValue(_) => Some(LocalTimeType)
      case OffsetDateValue(_) => Some(OffsetDateType)
      case OffsetDateTimeValue(_) => Some(OffsetDateTimeType)
      case OffsetTimeValue(_) => Some(OffsetTimeType)
      case DateTimeZoneValue(_) => Some(DateTimeZoneType)
      case ZonedDateTimeValue(_) => Some(ZonedDateTimeType)
      case DurationValue(_) => Some(DurationType)
      case PeriodValue(_) => Some(PeriodType)
      case IntervalValue(_) => Some(IntervalType)
      case YearMonthValue(_) => Some(YearMonthType)
      case OtherValue(_) => None
    }
  }
}
