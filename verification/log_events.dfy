/** The host logging framework's value model, as far as the policies build it. */
module LogEvents {
  import opened Exceptions

  /** A loggable value: one scalar, or a structure of named properties in order.
      Every scalar the policies build wraps a string. */
  datatype LogEventPropertyValue =
    | ScalarValue(text: string)
    | StructureValue(properties: seq<LogEventProperty>)

  datatype LogEventProperty = LogEventProperty(name: string, value: LogEventPropertyValue)

  /** What offering one value to one policy's `TryDestructure` does: return
      false with a null result, return true with a result, or throw. */
  datatype Destructuring =
    | NotApplicable
    | Destructured(result: LogEventPropertyValue)
    | Threw(exception: Exception)
}
