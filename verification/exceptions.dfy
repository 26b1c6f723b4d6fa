/** The exceptions the destructuring core can raise. */
module Exceptions {
  import opened Wrappers

  datatype Exception =
      /** `new ArgumentException(message, paramName)`; either part may be null. */
    | ArgumentException(message: Option<string>, paramName: Option<string>)
      /** `new ArgumentNullException(paramName)`. */
    | ArgumentNullException(nullParameter: string)
      /** Noda Time's `InvalidNodaDataException(message)`. */
    | InvalidNodaDataException(dataMessage: string)
      /** Raised by `string.Format` for a malformed composite format string. */
    | FormatException
}
