/** The library's two guard helpers, and the one-argument `string.Format` that
    the data guard uses to build its message. */
module Preconditions {
  import opened Wrappers
  import opened Exceptions

  /** `CheckArgument(expression, parameter, message)`: nothing happens when the
      expression holds; otherwise an argument exception carrying the given
      message and parameter name is thrown. */
  function CheckArgument(expression: bool, parameter: Option<string>, message: Option<string>): (r: Outcome<Exception>)
    ensures r.Pass? <==> expression
    ensures r.Fail? ==> r.error.ArgumentException? && r.error.message == message && r.error.paramName == parameter
  {
    if expression then Pass else Fail(ArgumentException(message, parameter))
  }

  /** `CheckData(expression, messageFormat, messageArg)`: nothing happens when
      the expression holds; otherwise the message is formatted with the
      argument's text and a data exception is thrown. A malformed format string
      makes the formatting itself throw. */
  function CheckData(expression: bool, messageFormat: string, messageArg: string): (r: Outcome<Exception>)
    ensures r.Pass? <==> expression
    ensures r.Fail? && Format(messageFormat, messageArg).Success? ==>
              r.error == InvalidNodaDataException(Format(messageFormat, messageArg).value)
    ensures r.Fail? && Format(messageFormat, messageArg).Failure? ==> r.error == FormatException
  {
    if expression then Pass
    else match Format(messageFormat, messageArg)
      case Success(message) => Fail(InvalidNodaDataException(message))
      case Failure(e) => Fail(e)
  }

  /** Puts `prefix` in front of a successful result; a failure passes through. */
  function Prepend(prefix: string, r: Result<string, Exception>): Result<string, Exception>
  {
    match r
    case Success(s) => Success(prefix + s)
    case Failure(e) => Failure(e)
  }

  /** `string.Format(format, arg)` with a single argument whose text is `arg`:
      `{0}` is replaced by the argument, `{{` and `}}` stand for single braces,
      and any other brace is a format error. */
  function Format(format: string, arg: string): (r: Result<string, Exception>)
    ensures r.Failure? ==> r.error == FormatException
    decreases |format|
  {
    if |format| == 0 then Success("")
    else if format[0] == '{' then
      if 2 <= |format| && format[1] == '{' then Prepend("{", Format(format[2..], arg))
      else if 3 <= |format| && format[1] == '0' && format[2] == '}' then Prepend(arg, Format(format[3..], arg))
      else Failure(FormatException)
    else if format[0] == '}' then
      if 2 <= |format| && format[1] == '}' then Prepend("}", Format(format[2..], arg))
      else Failure(FormatException)
    else Prepend([format[0]], Format(format[1..], arg))
  }

  predicate IsBrace(c: char) { c == '{' || c == '}' }

  /** The format string that stands for the literal text `s`: every brace doubled. */
  function Escape(s: string): (e: string)
    ensures '{' !in s && '}' !in s ==> e == s
  {
    if |s| == 0 then ""
    else (if IsBrace(s[0]) then [s[0], s[0]] else [s[0]]) + Escape(s[1..])
  }

  /** Prepending twice is prepending the concatenation. */
  lemma PrependTwice(a: string, b: string, r: Result<string, Exception>)
    ensures Prepend(a, Prepend(b, r)) == Prepend(a + b, r)
  {
    if r.Success? {
      assert a + (b + r.value) == (a + b) + r.value;
    }
  }

  /** One escaped character at the front of a format string is read back as itself. */
  lemma FormatEscapedChar(c: char, tail: string, arg: string)
    ensures Format(Escape([c]) + tail, arg) == Prepend([c], Format(tail, arg))
  {
  }

  /** A literal prefix, escaped, is copied through by formatting. */
  lemma {:induction false} FormatEscapedPrefix(lit: string, rest: string, arg: string)
    ensures Format(Escape(lit) + rest, arg) == Prepend(lit, Format(rest, arg))
    decreases |lit|
  {
    if |lit| == 0 {
      assert Escape(lit) + rest == rest;
      if Format(rest, arg).Success? {
        assert lit + Format(rest, arg).value == Format(rest, arg).value;
      }
    } else {
      var c := lit[0];
      var tail := Escape(lit[1..]) + rest;
      assert Escape(lit) == Escape([c]) + Escape(lit[1..]) by {
        assert [c][1..] == [];
        assert Escape([c]) == (if IsBrace(c) then [c, c] else [c]);
      }
      assert Escape(lit) + rest == Escape([c]) + tail;
      FormatEscapedChar(c, tail, arg);
      FormatEscapedPrefix(lit[1..], rest, arg);
      PrependTwice([c], lit[1..], Format(rest, arg));
      assert [c] + lit[1..] == lit;
    }
  }

  /** Formatting reads an escaped text back unchanged, whatever the argument. */
  lemma EscapeRoundTrip(s: string, arg: string)
    ensures Format(Escape(s), arg) == Success(s)
  {
    FormatEscapedPrefix(s, "", arg);
    assert Escape(s) + "" == Escape(s);
    assert s + "" == s;
  }

  /** One placeholder between two literal texts is replaced by the argument,
      and the argument's own braces are not interpreted. */
  lemma FormatSubstitutesPlaceholder(before: string, after: string, arg: string)
    ensures Format(Escape(before) + "{0}" + Escape(after), arg) == Success(before + arg + after)
  {
    var rest := "{0}" + Escape(after);
    assert Escape(before) + "{0}" + Escape(after) == Escape(before) + rest;
    FormatEscapedPrefix(before, rest, arg);
    FormatPlaceholderFront(Escape(after), arg);
    EscapeRoundTrip(after, arg);
    assert before + (arg + after) == before + arg + after;
  }

  /** A placeholder at the front of a format string becomes the argument. */
  lemma FormatPlaceholderFront(tail: string, arg: string)
    ensures Format("{0}" + tail, arg) == Prepend(arg, Format(tail, arg))
  {
    assert ("{0}" + tail)[3..] == tail;
  }

  /** A failed data check whose format string has one placeholder throws a data
      exception whose message has the argument substituted. */
  lemma CheckDataSubstitutes(before: string, after: string, arg: string)
    ensures CheckData(false, Escape(before) + "{0}" + Escape(after), arg)
            == Fail(InvalidNodaDataException(before + arg + after))
  {
    FormatSubstitutesPlaceholder(before, after, arg);
  }

  /** The same, for literal texts without braces, which need no escaping. */
  lemma CheckDataSubstitutesBraceFree(before: string, after: string, arg: string)
    requires '{' !in before && '}' !in before
    requires '{' !in after && '}' !in after
    ensures CheckData(false, before + "{0}" + after, arg) == Fail(InvalidNodaDataException(before + arg + after))
  {
    CheckDataSubstitutes(before, after, arg);
  }

  /** Whether formatting succeeds depends only on the format string. */
  lemma {:induction false} FormatFailureIndependentOfArgument(format: string, a: string, b: string)
    ensures Format(format, a).Success? <==> Format(format, b).Success?
    decreases |format|
  {
    if |format| != 0 {
      if format[0] == '{' {
        if 2 <= |format| && format[1] == '{' {
          FormatFailureIndependentOfArgument(format[2..], a, b);
        } else if 3 <= |format| && format[1] == '0' && format[2] == '}' {
          FormatFailureIndependentOfArgument(format[3..], a, b);
        }
      } else if format[0] == '}' {
        if 2 <= |format| && format[1] == '}' {
          FormatFailureIndependentOfArgument(format[2..], a, b);
        }
      } else {
        FormatFailureIndependentOfArgument(format[1..], a, b);
      }
    }
  }
}
