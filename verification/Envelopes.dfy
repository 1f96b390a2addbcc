/** The envelope every event travels in, and the gate in front of publishing (envelope/envelope.go). */
module Envelopes {
  import opened GoStrings
  import opened Options
  import EventTypes

  /** An instant; the zero `time.Time` is `NO_TIME`. */
  type Time = int
  const NO_TIME: Time := 0

  datatype Actor = Actor(id: GoString, kind: GoString)

  datatype Envelope = Envelope(
    id: GoString,
    eventType: GoString,
    version: GoString,
    source: GoString,
    timestamp: Time,
    correlationID: GoString,
    causationID: GoString,
    actor: Option<Actor>,
    payload: GoString)

  datatype ValidationError =
    | IDRequired
    | EventTypeRequired
    | VersionRequired
    | VersionInvalid
    | SourceRequired
    | TimestampRequired
    | CorrelationIDRequired
    | PayloadRequired

  predicate AllDigits(s: GoString) {
    s != [] && forall c | c in s :: '0' <= c <= '9'
  }

  /** The pattern `^\d+\.\d+$`, read off at the first dot. */
  predicate IsSemver(s: GoString) {
    '.' in s && AllDigits(EventTypes.DomainOf(s)) && AllDigits(EventTypes.ActionOf(s))
  }

  /** The pattern itself: digits, a dot, digits, and nothing else. */
  lemma SemverMatchesPattern(s: GoString)
    ensures IsSemver(s) <==>
            exists major: GoString, minor: GoString ::
              AllDigits(major) && AllDigits(minor) && s == major + "." + minor
  {
    if IsSemver(s) {
      EventTypes.SplitRebuilds(s);
    }
    forall major: GoString, minor: GoString | AllDigits(major) && AllDigits(minor) && s == major + "." + minor
      ensures IsSemver(s)
    {
      assert '.' !in major;
      EventTypes.SplitOfJoin(major, minor);
    }
  }

  /** What publishing promises about an envelope, as a property of its fields. */
  predicate Publishable(e: Envelope) {
    && e.id != "" && e.eventType != "" && e.source != "" && e.correlationID != "" && e.payload != ""
    && IsSemver(e.version)
    && e.timestamp != NO_TIME
  }

  /** The error names something that is wrong with the envelope. */
  predicate Violates(e: Envelope, err: ValidationError) {
    match err
    case IDRequired => e.id == ""
    case EventTypeRequired => e.eventType == ""
    case VersionRequired => e.version == ""
    case VersionInvalid => e.version != "" && !IsSemver(e.version)
    case SourceRequired => e.source == ""
    case TimestampRequired => e.timestamp == NO_TIME
    case CorrelationIDRequired => e.correlationID == ""
    case PayloadRequired => e.payload == ""
  }

  /** The order in which the fields are checked. */
  function Turn(err: ValidationError): nat {
    match err
    case IDRequired => 0
    case EventTypeRequired => 1
    case VersionRequired => 2
    case VersionInvalid => 3
    case SourceRequired => 4
    case TimestampRequired => 5
    case CorrelationIDRequired => 6
    case PayloadRequired => 7
  }

  /** The error applies, and none that is checked before it does. */
  ghost predicate FirstViolation(e: Envelope, err: ValidationError) {
    Violates(e, err) && forall other: ValidationError | Turn(other) < Turn(err) :: !Violates(e, other)
  }

  /** `Envelope.Validate`: the first missing or malformed field. */
  function Validate(e: Envelope): (err: Option<ValidationError>)
    ensures err.None? <==> Publishable(e)
    ensures err.Some? ==> FirstViolation(e, err.value)
  {
    if e.id == "" then Some(IDRequired)
    else if e.eventType == "" then Some(EventTypeRequired)
    else if e.version == "" then Some(VersionRequired)
    else if !IsSemver(e.version) then Some(VersionInvalid)
    else if e.source == "" then Some(SourceRequired)
    else if e.timestamp == NO_TIME then Some(TimestampRequired)
    else if e.correlationID == "" then Some(CorrelationIDRequired)
    else if |e.payload| == 0 then Some(PayloadRequired)
    else None
  }

  /** `Envelope.EventDomain`, the second copy of the scan in `EventTypes.Domain`. */
  method EventDomain(e: Envelope) returns (domain: GoString)
    ensures domain == EventTypes.DomainOf(e.eventType)
  {
    var i := 0;
    while i < |e.eventType|
      invariant i <= |e.eventType| && '.' !in e.eventType[..i]
    {
      var d := DecodeRune(e.eventType, i);
      if d.rune == '.' as int {
        IndexOfUnique(e.eventType, '.', i);
        return e.eventType[..i];
      }
      EventTypes.SkipsNoDot(e.eventType, i);
      i := i + d.width;
    }
    IndexOfUnique(e.eventType, '.', i);
    return e.eventType;
  }

  /** `Envelope.EventAction` */
  method EventAction(e: Envelope) returns (action: GoString)
    ensures action == EventTypes.ActionOf(e.eventType)
  {
    var i := 0;
    while i < |e.eventType|
      invariant i <= |e.eventType| && '.' !in e.eventType[..i]
    {
      var d := DecodeRune(e.eventType, i);
      if d.rune == '.' as int {
        IndexOfUnique(e.eventType, '.', i);
        return e.eventType[i + 1..];
      }
      EventTypes.SkipsNoDot(e.eventType, i);
      i := i + d.width;
    }
    return "";
  }
}
