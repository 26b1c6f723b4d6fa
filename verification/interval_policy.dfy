/** The interval policy. An interval has no single-string form, so the policy
    builds a structure with one property per endpoint the interval has; each
    endpoint is handed back to the property-value factory to be destructured
    in turn. */
module IntervalPolicy {
  import opened Wrappers
  import opened NodaTime
  import opened LogEvents
  import opened NodaText
  import FormatPolicies

  /** The endpoints an interval has, each with the property name it is logged
      under, in the order the structure lists them. */
  function PresentEndpoints(interval: Interval): seq<(string, Instant)>
  {
    (if interval.HasStart() then [("Start", interval.start.value)] else [])
    + (if interval.HasEnd() then [("End", interval.end.value)] else [])
  }

  function PropertyNames(properties: seq<LogEventProperty>): seq<string>
  {
    seq(|properties|, k requires 0 <= k < |properties| => properties[k].name)
  }

  /** `TryDestructure`. `factory` is what the property-value factory produces
      for an instant when asked to destructure objects. Any interval is
      accepted: the result is a structure whose properties are exactly the
      present endpoints, in order, each destructured by the factory. */
  function TryDestructure(factory: Instant -> LogEventPropertyValue, value: Value): (r: Destructuring)
    ensures r.NotApplicable? <==> !value.IntervalValue?
    ensures value.IntervalValue? ==> r.Destructured? && r.result.StructureValue?
    ensures value.IntervalValue? ==>
              var endpoints := PresentEndpoints(value.interval);
              && |r.result.properties| == |endpoints|
              && forall k :: 0 <= k < |endpoints| ==>
                   r.result.properties[k] == LogEventProperty(endpoints[k].0, factory(endpoints[k].1))
  {
    match value
    case IntervalValue(interval) =>
      if interval.HasStart() then
        if interval.HasEnd() then
          Destructured(StructureValue([LogEventProperty("Start", factory(interval.start.value)),
                                       LogEventProperty("End", factory(interval.end.value))]))
        else
          Destructured(StructureValue([LogEventProperty("Start", factory(interval.start.value))]))
      else if interval.HasEnd() then
        Destructured(StructureValue([LogEventProperty("End", factory(interval.end.value))]))
      else
        Destructured(StructureValue([]))
    case _ => NotApplicable
  }

  /** The four endpoint combinations give the property lists Start then End,
      Start alone, End alone, and none at all: an empty structure, not a
      declined value. */
  lemma IntervalPropertyNames(factory: Instant -> LogEventPropertyValue, interval: Interval)
    ensures var r := TryDestructure(factory, IntervalValue(interval));
            && r.Destructured? && r.result.StructureValue?
            && PropertyNames(r.result.properties)
               == if interval.HasStart() && interval.HasEnd() then ["Start", "End"]
                  else if interval.HasStart() then ["Start"]
                  else if interval.HasEnd() then ["End"]
                  else []
  {
  }

  /** The factory the host builds when the instant policy is registered: an
      instant is destructured by that policy. */
  function InstantPolicyFactory(text: Patterns): Instant -> LogEventPropertyValue
  {
    i => FormatPolicies.DestructureInstant(text, InstantValue(i)).result
  }

  /** With that factory, every endpoint property holds the endpoint formatted
      by the instant policy's general pattern, as one scalar. */
  lemma EndpointsUseInstantPolicy(text: Patterns, interval: Interval)
    ensures var r := TryDestructure(InstantPolicyFactory(text), IntervalValue(interval));
            var endpoints := PresentEndpoints(interval);
            && |r.result.properties| == |endpoints|
            && forall k :: 0 <= k < |endpoints| ==>
                 r.result.properties[k].value == ScalarValue(text.instantGeneral(endpoints[k].1))
  {
  }
}
