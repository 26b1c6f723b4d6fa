# Serilog.NodaTime destructuring policies, modelled in Dafny

Serilog.NodaTime teaches the Serilog logging framework how to "destructure"
Noda Time values: when a log call asks for a date/time value to be
destructured, each registered policy is offered the value and the one bound
to the value's type turns it into a loggable value.

This project models that policy layer:

- **The generic policy** (`DestructuringPolicyBase`). A policy binds one value
  type to a fixed Noda Time pattern and at most one validator. A value of
  another type is declined ("not applicable", null result). A value of the
  bound type goes through the validator first and is then formatted into a
  single scalar.
- **The ISO gate** (`CreateIsoValidator`). The patterns of the
  calendar-bearing types leave the calendar out. So the gate rejects any value
  whose calendar is not the ISO calendar, through `Preconditions.CheckArgument`.
- **The guard helpers** (`Preconditions`): `CheckArgument`, and `CheckData`
  together with the one-argument `string.Format` it uses.
- **The eight fixed-pattern policies** (`FormatPolicies`): instant, offset,
  local date-time, local date, offset date, offset date-time, period and
  year-month.
- **The three policies with their own logic.** Interval
  (`IntervalPolicy`) branches four ways on which endpoints are present and
  builds a structure. Time zone (`DateTimeZonePolicy`) logs the zone id.
  Zoned date-time (`ZonedDateTimePolicy`) builds its pattern object once, at
  construction, from a zone provider.
- **The two registration façades.** `LoggerConfigurationNodaTimeExtensions`
  has fifteen per-type `With...` operations and a `ConfigureForNodaTime` that
  chains them. `Extensions` has a `ConfigureForNodaTime` that registers twelve
  entries directly.

Values form a closed union (`NodaTime.Value`) over the fifteen Noda Time types
plus "any other object". A calendar is `Iso` or `NonIso(id)`; the source tests
`calendar == CalendarSystem.Iso` against the library's single ISO instance.
The library's patterns (`InstantPattern.General`, `LocalDatePattern.Iso`, ...)
are fields of `NodaText.Patterns`: total functions the caller supplies. Every
property below therefore holds for any formatter. An outcome of
`TryDestructure` is `NotApplicable`, `Destructured(value)` or
`Threw(exception)`. A registration list is a `seq` of entries. Each entry is a
policy (`With`) or a "treat as scalar" marker (`AsScalar`). A null reference
is `None`.

The ISO gate's template, "Values of type {0} must (currently) use the ISO
calendar in order to be serialized.", reads like a message for `CheckData`,
which would substitute the type name. The code instead calls
`CheckArgument(isIso, template, typeName)`, and that helper's parameters are
`(expression, parameter, message)`. So the `ArgumentException` is constructed
with message = the bare type name (for example `"LocalDateTime"`) and
paramName = the template with `{0}` still in it.
`DestructuringPolicyBase.IsoGateLeavesTemplateUnformatted` states this. It
also proves what `CheckData` would have thrown for the same arguments: a data
exception reading "Values of type LocalDateTime must (currently) use the ISO
calendar in order to be serialized."

The two façades register different sets. `Extensions` leaves out offset date,
offset time and year-month, which `LoggerConfigurationNodaTimeExtensions`
registers, and `ExtensionsIsStrictSubset` proves exactly that difference.

## Model

| member | source | states |
|---|---|---|
| `Preconditions.CheckArgument` | Serilog.NodaTime/NodaTime/Preconditions.cs:15-21 | passes exactly when the expression holds; otherwise throws an `ArgumentException` whose message and parameter name are the given ones, in that order |
| `Preconditions.CheckData` | Serilog.NodaTime/NodaTime/Preconditions.cs:23-30 | passes exactly when the expression holds; otherwise throws a data exception carrying the formatted message, or a `FormatException` when the format string is malformed |
| `Preconditions.Format` | Serilog.NodaTime/NodaTime/Preconditions.cs:27 | `string.Format` with one argument can only fail with a `FormatException` |
| `Preconditions.EscapeRoundTrip` | Serilog.NodaTime/NodaTime/Preconditions.cs:27 | formatting a text whose braces are doubled gives back the text, whatever the argument |
| `Preconditions.FormatSubstitutesPlaceholder` | Serilog.NodaTime/NodaTime/Preconditions.cs:27 | one `{0}` between two literal texts is replaced by the argument, and braces inside the argument are not interpreted |
| `Preconditions.CheckDataSubstitutes` | Serilog.NodaTime/NodaTime/Preconditions.cs:25-29 | a failed data check with a one-placeholder format throws a data exception whose message has the argument substituted |
| `Preconditions.FormatFailureIndependentOfArgument` | Serilog.NodaTime/NodaTime/Preconditions.cs:27 | whether formatting fails depends on the format string only, never on the argument |
| `DestructuringPolicyBase.TryDestructure` | Serilog.NodaTime/NodaTime/DestructuringPolicyBase.cs:26-39 | a value fails the type test exactly when the result is "not applicable"; a produced result is always one scalar of the pattern's output; it throws exactly when a bound validator fails, and then with the validator's exception and no result |
| `DestructuringPolicyBase.CreateIsoValidator` | Serilog.NodaTime/NodaTime/DestructuringPolicyBase.cs:41-49 | the validator accepts exactly the values whose projected calendar is the ISO calendar; every rejection is the ISO gate's argument exception for the bound type's name |
| `DestructuringPolicyBase.IsoGatedPolicy` | Serilog.NodaTime/NodaTime/DestructuringPolicyBase.cs:41-49 | a gated policy's validator is built from the policy's own type name: it accepts exactly the ISO-calendar values, and every rejection is the gate's exception naming that type |
| `DestructuringPolicyBase.IsoGateLeavesTemplateUnformatted` | Serilog.NodaTime/NodaTime/DestructuringPolicyBase.cs:47 | the gate's exception is an argument exception constructed with message = type name and paramName = the unformatted template; `CheckData` on the same arguments would have thrown a data exception with the name substituted |
| `FormatPolicies.DestructureInstant` | Serilog.NodaTime/NodaTime/InstantDestructuringPolicy.cs:10-13 | declines exactly the non-instants; every instant, with no validator, becomes the scalar of the general pattern |
| `FormatPolicies.DestructureOffset` | Serilog.NodaTime/NodaTime/OffsetDestructuringPolicy.cs:10-13 | declines exactly the non-offsets; every offset becomes the scalar of the general invariant pattern |
| `FormatPolicies.DestructureLocalDateTime` | Serilog.NodaTime/LocalDateTimeDestructuringPolicy.cs:10-15 | declines exactly the non-local-date-times; an ISO one becomes the scalar of the extended ISO pattern; any other calendar (Julian, ...) throws the ISO gate's exception for "LocalDateTime" and is never formatted |
| `FormatPolicies.DestructureLocalDate` | Serilog.NodaTime/NodaTime/LocalDateDestructuringPolicy.cs:10-15 | declines exactly the non-local-dates; an ISO one becomes the scalar of the ISO pattern; any other calendar throws the gate's exception for "LocalDate" |
| `FormatPolicies.DestructureOffsetDate` | Serilog.NodaTime/NodaTime/OffsetDateDestructuringPolicy.cs:10-15 | declines exactly the non-offset-dates; an ISO one becomes the scalar of the general ISO pattern; any other calendar throws the gate's exception for "OffsetDate" |
| `FormatPolicies.DestructureOffsetDateTime` | Serilog.NodaTime/NodaTime/OffsetDateTimeDestructuringPolicy.cs:10-15 | declines exactly the non-offset-date-times; an ISO one becomes the scalar of the RFC 3339 pattern; any other calendar throws the gate's exception for "OffsetDateTime" |
| `FormatPolicies.DestructurePeriod` | Serilog.NodaTime/Period.cs:10-13 | declines exactly the non-periods; every period becomes the scalar of the round-trip pattern |
| `FormatPolicies.DestructureYearMonth` | Serilog.NodaTime/NodaTime/YearMonthDestructuringPolicy.cs:6-11 | declines exactly the non-year-months; an ISO one becomes the scalar of the ISO pattern; any other calendar throws the gate's exception for "YearMonth" |
| `IntervalPolicy.TryDestructure` | Serilog.NodaTime/NodaTime/IntervalDestructuringPolicy.cs:13-45 | declines exactly the non-intervals; every interval, whatever its endpoints, becomes a structure whose properties are exactly its present endpoints in start-then-end order, each destructured by the factory |
| `IntervalPolicy.IntervalPropertyNames` | Serilog.NodaTime/NodaTime/IntervalDestructuringPolicy.cs:17-36 | the four endpoint combinations give the property names Start, End / Start / End / none; with neither endpoint the result is an empty structure, not a declined value |
| `IntervalPolicy.EndpointsUseInstantPolicy` | Serilog.NodaTime/NodaTime/IntervalDestructuringPolicy.cs:22-31 | when endpoints are destructured by the instant policy, every endpoint property holds the scalar of the instant's general pattern |
| `DateTimeZonePolicy.TryDestructure` | Serilog.NodaTime/NodaTime/DateTimeZoneDestructuringPolicy.cs:13-25 | declines exactly the non-zones; every zone, with no validator, becomes the scalar of its id |
| `DateTimeZonePolicy.EqualIdsLogAlike` | Serilog.NodaTime/NodaTime/DateTimeZoneDestructuringPolicy.cs:17 | two zones with the same id are logged identically, whatever their offsets |
| `ZonedDateTimePolicy.Create` | Serilog.NodaTime/NodaTime/ZonedDateTimeDestructuringPolicy.cs:17-20 | the constructor's pattern has the fixed text `uuuu'-'MM'-'dd'T'HH':'mm':'ss;FFFFFFFFFo<G> z`, invariant culture and the given provider; a null provider is accepted |
| `ZonedDateTimePolicy.TryDestructure` | Serilog.NodaTime/NodaTime/ZonedDateTimeDestructuringPolicy.cs:13-21 | declines exactly the non-zoned-date-times; an ISO one is formatted with the pattern captured at construction; any other calendar throws the gate's exception for "ZonedDateTime" |
| `Registry.TryDestructure` | Serilog.NodaTime/NodaTime/DestructuringPolicyBase.cs:28-38 | each modelled policy accepts (formats or throws) exactly the values whose type is the type it is declared for |
| `Registry.AtMostOneClaimant` | Serilog.NodaTime/LoggerConfigurationNodaTimeExtensions.cs:35-49 | when no two entries bind the same type, no two entries claim the same value |
| `Registry.FindClaimant` | Serilog.NodaTime/LoggerConfigurationNodaTimeExtensions.cs:34-49 | scanning in registration order finds the first entry that claims a value, or reports that none does; with distinct bound types that entry is the only claimant |
| `LoggerConfigurationNodaTimeExtensions.Register` | Serilog.NodaTime/LoggerConfigurationNodaTimeExtensions.cs:56-196 | every `With...` operation throws `ArgumentNullException("ldc")` on a null `ldc` and registers nothing; otherwise it appends one entry for its type and returns the same configuration; `WithZonedDateTime` does not check its provider |
| `LoggerConfigurationNodaTimeExtensions.Chain` | Serilog.NodaTime/LoggerConfigurationNodaTimeExtensions.cs:34-49 | chaining `With...` operations keeps the configuration's identity and appends their entries in call order |
| `LoggerConfigurationNodaTimeExtensions.ConfigureForNodaTime` | Serilog.NodaTime/LoggerConfigurationNodaTimeExtensions.cs:27-50 | a null `lc`, then a null `provider`, throws `ArgumentNullException` naming it before anything is registered; otherwise exactly the fifteen entries are appended in their fixed order and the same configuration is returned |
| `LoggerConfigurationNodaTimeExtensions.FullEntriesBindDistinctTypes` | Serilog.NodaTime/LoggerConfigurationNodaTimeExtensions.cs:35-49 | the fifteen entries bind pairwise distinct types |
| `LoggerConfigurationNodaTimeExtensions.FullEntriesCoverEveryType` | Serilog.NodaTime/LoggerConfigurationNodaTimeExtensions.cs:35-49 | every known Noda Time type is bound by one of the fifteen entries |
| `LoggerConfigurationNodaTimeExtensions.FullEntriesScalarMarkers` | Serilog.NodaTime/LoggerConfigurationNodaTimeExtensions.cs:66-80 | offset and calendar system are scalar markers, no other entry is, and the offset policy is never registered |
| `LoggerConfigurationNodaTimeExtensions.AtMostOnePolicyAccepts` | Serilog.NodaTime/LoggerConfigurationNodaTimeExtensions.cs:34-49 | of the full façade's modelled policies, at most one accepts any given value |
| `Extensions.ConfigureForNodaTime` | Serilog.NodaTime/Extensions.cs:24-48 | a null `lc`, then a null `provider`, throws `ArgumentNullException` naming it before anything is registered; otherwise exactly twelve entries are appended in their fixed order and the same configuration is returned |
| `Extensions.ExtensionEntriesWellFormed` | Serilog.NodaTime/Extensions.cs:35-47 | the twelve entries bind distinct types; offset and calendar system are the only scalar markers; the offset policy is not registered |
| `Extensions.ExtensionsBindType` | Serilog.NodaTime/Extensions.cs:35-47 | this façade binds a type exactly when it is not offset date, offset time or year-month |
| `Extensions.ExtensionsIsStrictSubset` | Serilog.NodaTime/Extensions.cs:35-47 | every entry of this façade is also made by the fifteen-entry façade; its bound types are a strict subset, missing exactly offset date, offset time and year-month |

## Left out

- The text of `ArgumentException.Message`: .NET appends the parameter name to the constructor's message (for example `LocalDateTime (Parameter 'Values of type {0} ...')`). The model records only the two constructor arguments.
- Noda Time's pattern formatting and parsing: an external library. Each pattern is an uninterpreted function, so round-trips through parsing are not stated.
- Serilog's internals: how the property-value factory turns a string or an anonymous object into a value, how the dispatcher walks the registered policies, what `AsScalar` logs, the type tag of structure values, and the unboxing of nullable structs. The interval's factory is a parameter; `Registry.FindClaimant` only states which entry would claim a value.
- The local-time, offset-time and duration policies: their source files are not part of this model. They appear as registration entries bound to their types, with no formatting behaviour (`PolicyKind.Modelled` excludes them).
- The zone provider: an opaque reference captured at construction and never consulted.
- Creating the zoned pattern object cannot fail in the model. The library validates the pattern text; the fixed text used here is valid.
- Preconditions.Format: only `{0}`, `{{` and `}}` are modelled. An alignment (`{0,5}`), a format component (`{0:x}`), a padded index (`{00}`) or inner spaces count as format errors, though .NET accepts them.
- Preconditions.CheckData: the argument is modelled by its text. Converting an object to text is external.
- Idempotence: every policy is a pure function here, so destructuring the same value twice gives the same result by construction. No separate lemma states it.
- Concurrency: there is none. Policies are immutable values.
- Test and example code: the Json.NET round-trip tests, the test sinks and the console examples.
