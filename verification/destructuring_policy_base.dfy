/** The generic destructuring policy: a policy binds one value type to a fixed
    pattern and at most one validator. Offered a value, it declines values of
    other types, runs the validator on values of its type, and formats them
    into a single scalar. */
module DestructuringPolicyBase {
  import opened Wrappers
  import opened Exceptions
  import opened NodaTime
  import opened LogEvents
  import Preconditions

  /** The text the ISO gate passes to the argument check, placeholder included:
      "Values of type {0} must (currently) use the ISO calendar in order to be serialized." */
  const IsoTemplate: string := IsoTemplateBefore + "{0}" + IsoTemplateAfter

  const IsoTemplateBefore: string := "Values of type "
  const IsoTemplateAfter: string := " must (currently) use" + " the ISO calendar in order" + " to be serialized."

  /** A policy bound to the value type `T`. `typeTest` is the runtime test
      `value is T t`, `pattern` is the pattern's `Format`, and `validator`, when
      present, returns normally or throws. */
  datatype Policy<!T> = Policy(
    typeName: string,
    typeTest: Value -> Option<T>,
    pattern: T -> string,
    validator: Option<T -> Outcome<Exception>>)

  /** `TryDestructure`: a value of another type is declined with no effect; a
      value of the bound type is validated first and, if the validator does not
      throw, formatted into one scalar. */
  function TryDestructure<T>(p: Policy<T>, value: Value): (r: Destructuring)
    ensures r.NotApplicable? <==> p.typeTest(value).None?
    ensures r.Destructured? ==> r.result == ScalarValue(p.pattern(p.typeTest(value).value))
    ensures r.Threw? <==>
              p.typeTest(value).Some? && p.validator.Some? && p.validator.value(p.typeTest(value).value).Fail?
    ensures r.Threw? ==> r.exception == p.validator.value(p.typeTest(value).value).error
  {
    match p.typeTest(value)
    case None => NotApplicable
    case Some(t) =>
      var validated := if p.validator.Some? then p.validator.value(t) else Pass;
      match validated
      case Fail(e) => Threw(e)
      case Pass => Destructured(ScalarValue(p.pattern(t)))
  }

  /** The exception the ISO gate throws for a value of type `typeName`. The
      argument check is handed the template as its parameter name and the type
      name as its message, so the template is never formatted. */
  function IsoGateError(typeName: string): Exception
  {
    ArgumentException(Some(typeName), Some(IsoTemplate))
  }

  /** `CreateIsoValidator(calendarProjection)`: a validator that accepts exactly
      the values whose projected calendar is the ISO calendar and otherwise
      throws the ISO gate's argument exception. */
  function CreateIsoValidator<T(!new)>(typeName: string, calendarProjection: T -> CalendarSystem): (validate: T -> Outcome<Exception>)
    ensures forall t :: validate(t).Pass? <==> calendarProjection(t) == Iso
    ensures forall t :: validate(t).Fail? ==> validate(t).error == IsoGateError(typeName)
  {
    t => Preconditions.CheckArgument(calendarProjection(t) == Iso, Some(IsoTemplate), Some(typeName))
  }

  /** A policy gated on the ISO calendar: its validator is built from the
      policy's own type name, as the constructor passes `typeof(T).Name`, so
      every rejection names the type the policy is bound to. */
  function IsoGatedPolicy<T(!new)>(typeName: string, typeTest: Value -> Option<T>, pattern: T -> string,
                                   calendarProjection: T -> CalendarSystem): (p: Policy<T>)
    ensures p.typeName == typeName && p.typeTest == typeTest && p.pattern == pattern
    ensures p.validator.Some?
    ensures forall t :: p.validator.value(t).Pass? <==> calendarProjection(t) == Iso
    ensures forall t :: p.validator.value(t).Fail? ==> p.validator.value(t).error == IsoGateError(p.typeName)
  {
    Policy(typeName, typeTest, pattern, Some(CreateIsoValidator(typeName, calendarProjection)))
  }

  /** The ISO gate's exception is an argument exception, not a data exception:
      its message is the bare type name and its parameter name is the template
      with `{0}` unreplaced. A data check given the same template and type name
      would have thrown a data exception with the type name substituted. */
  lemma IsoGateLeavesTemplateUnformatted(typeName: string)
    ensures IsoGateError(typeName).ArgumentException?
    ensures IsoGateError(typeName).message == Some(typeName)
    ensures IsoGateError(typeName).paramName == Some(IsoTemplate)
    ensures Preconditions.CheckData(false, IsoTemplate, typeName)
            == Fail(InvalidNodaDataException(IsoTemplateBefore + typeName + IsoTemplateAfter))
  {
    IsoTemplatePartsBraceFree();
    Preconditions.CheckDataSubstitutesBraceFree(IsoTemplateBefore, IsoTemplateAfter, typeName);
  }

  predicate BraceFree(s: string) {
    '{' !in s && '}' !in s
  }

  /** Neither literal part of the template holds a brace; each chunk is checked
      on its own, which keeps the proof small. */
  lemma IsoTemplatePartsBraceFree()
    ensures BraceFree(IsoTemplateBefore) && BraceFree(IsoTemplateAfter)
  {
    ChunkBraceFree1();
    ChunkBraceFree2();
    ChunkBraceFree3();
    ChunkBraceFree4();
  }

  lemma ChunkBraceFree1()
    ensures BraceFree("Values of type ")
  {
  }

  lemma ChunkBraceFree2()
    ensures BraceFree(" must (currently) use")
  {
  }

  lemma ChunkBraceFree3()
    ensures BraceFree(" the ISO calendar in order")
  {
  }

  lemma ChunkBraceFree4()
    ensures BraceFree(" to be serialized.")
  {
  }
}
