/** The time-zone policy: a zone is logged as its identifier. */
module DateTimeZonePolicy {
  import opened NodaTime
  import opened LogEvents

  /** `TryDestructure`: every zone is accepted and becomes the scalar of its id;
      any other value is declined. */
  function TryDestructure(value: Value): (r: Destructuring)
    ensures r.NotApplicable? <==> !value.DateTimeZoneValue?
    ensures value.DateTimeZoneValue? ==> r == Destructured(ScalarValue(value.zone.id))
  {
    match value
    case DateTimeZoneValue(dtz) => Destructured(ScalarValue(dtz.id))
    case _ => NotApplicable
  }

  /** Only the id reaches the log: zones with equal ids are logged alike,
      whatever their offsets. */
  lemma EqualIdsLogAlike(a: DateTimeZone, b: DateTimeZone)
    requires a.id == b.id
    ensures TryDestructure(DateTimeZoneValue(a)) == TryDestructure(DateTimeZoneValue(b))
  {
  }
}
