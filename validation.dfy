/**
 * The ingress schema a tracking request body must satisfy, and
 * `validateTrackingEvent`, which turns a body into parsed data or a list of
 * issues without ever throwing.
 */
module Validation {
  import opened Wrappers
  import opened Json
  import opened EventModel

  /** The keys the schema declares, in declaration order. */
  datatype Field = EventField | PageField | SessionIdField | UserIdField | ReferrerField
                 | UserAgentField | TimezoneField | TimestampField

  function FieldKey(f: Field): string
  {
    match f
    case EventField => "event"
    case PageField => "page"
    case SessionIdField => "sessionId"
    case UserIdField => "userId"
    case ReferrerField => "referrer"
    case UserAgentField => "userAgent"
    case TimezoneField => "timezone"
    case TimestampField => "timestamp"
  }

  const FIELDS: seq<Field> := [EventField, PageField, SessionIdField, UserIdField, ReferrerField,
                               UserAgentField, TimezoneField, TimestampField]

  lemma FieldsComplete()
    ensures forall f :: f in FIELDS
  {
    forall f ensures f in FIELDS {
      match f
      case EventField => assert FIELDS[0] == f;
      case PageField => assert FIELDS[1] == f;
      case SessionIdField => assert FIELDS[2] == f;
      case UserIdField => assert FIELDS[3] == f;
      case ReferrerField => assert FIELDS[4] == f;
      case UserAgentField => assert FIELDS[5] == f;
      case TimezoneField => assert FIELDS[6] == f;
      case TimestampField => assert FIELDS[7] == f;
    }
  }

  /** A present, non-empty string (`z.string().min(1)`). */
  predicate NonEmptyString(o: Object, key: string)
  {
    key in o && o[key].JStr? && |o[key].s| >= 1
  }

  /** Absent, or a string (`z.string().optional()`; null is rejected). */
  predicate OptionalString(o: Object, key: string)
  {
    key !in o || o[key].JStr?
  }

  /** A number that is an integer (`z.number().int()`). */
  predicate IsInteger(n: real)
  {
    n.Floor as real == n
  }

  /**
   * The schema, key by key. A `page` passes `url().or(min(1))` exactly when it
   * is a non-empty string, since every URL is non-empty.
   */
  predicate FieldAccepts(o: Object, f: Field)
  {
    match f
    case EventField => "event" in o && o["event"].JStr? && FromName(o["event"].s).Some?
    case PageField => NonEmptyString(o, "page")
    case SessionIdField => NonEmptyString(o, "sessionId")
    case UserAgentField => NonEmptyString(o, "userAgent")
    case TimestampField => "timestamp" in o && o["timestamp"].JNum?
                           && IsInteger(o["timestamp"].n) && o["timestamp"].n > 0.0
    case _ => OptionalString(o, FieldKey(f))
  }

  /** The parsed data: the declared keys only, optional ones possibly absent. */
  datatype TrackEvent = TrackEvent(
    event: EventType,
    page: string,
    sessionId: string,
    userId: Option<string>,
    referrer: Option<string>,
    userAgent: string,
    timezone: Option<string>,
    timestamp: int)

  /** The result record: `success: true` with the data, or `success: false` with the failing keys. */
  datatype ValidationResult = Success(data: TrackEvent) | Failure(errors: seq<Field>)

  /** The keys of `fields` whose values the schema rejects, in order. */
  function Issues(o: Object, fields: seq<Field>): (r: seq<Field>)
    ensures forall f :: f in r <==> f in fields && !FieldAccepts(o, f)
  {
    if fields == [] then []
    else (if FieldAccepts(o, fields[0]) then [] else [fields[0]]) + Issues(o, fields[1..])
  }

  function OptionalValue(o: Object, key: string): Option<string>
  {
    if key in o && o[key].JStr? then Some(o[key].s) else None
  }

  /** The parsed data as a JSON object: exactly the declared keys that are present. */
  function ToJson(t: TrackEvent): Object
  {
    var required := map["event" := JStr(Name(t.event)), "page" := JStr(t.page),
                        "sessionId" := JStr(t.sessionId), "userAgent" := JStr(t.userAgent),
                        "timestamp" := JNum(t.timestamp as real)];
    var withUser := if t.userId.Some? then required["userId" := JStr(t.userId.value)] else required;
    var withReferrer := if t.referrer.Some? then withUser["referrer" := JStr(t.referrer.value)] else withUser;
    if t.timezone.Some? then withReferrer["timezone" := JStr(t.timezone.value)] else withReferrer
  }

  /** The body with every key the schema does not declare stripped, as `parse` does. */
  function Declared(o: Object): Object
  {
    map f | f in FIELDS && FieldKey(f) in o :: FieldKey(f) := o[FieldKey(f)]
  }

  /** Every declared key passes, written out key by key. */
  predicate Accepted(o: Object)
  {
    && FieldAccepts(o, EventField) && FieldAccepts(o, PageField) && FieldAccepts(o, SessionIdField)
    && FieldAccepts(o, UserIdField) && FieldAccepts(o, ReferrerField) && FieldAccepts(o, UserAgentField)
    && FieldAccepts(o, TimezoneField) && FieldAccepts(o, TimestampField)
  }

  lemma AcceptedEveryField(o: Object)
    ensures Accepted(o) <==> forall f :: FieldAccepts(o, f)
  {
    if Accepted(o) {
      forall f ensures FieldAccepts(o, f) { match f case _ => }
    }
  }

  /** The data `parse` returns for an accepted body. */
  function Parsed(o: Object): (r: TrackEvent)
    requires Accepted(o)
    ensures Name(r.event) == o["event"].s
    ensures r.page == o["page"].s && r.sessionId == o["sessionId"].s && r.userAgent == o["userAgent"].s
    ensures r.timestamp as real == o["timestamp"].n
    ensures (r.userId.Some? <==> "userId" in o) && (r.userId.Some? ==> o["userId"] == JStr(r.userId.value))
    ensures (r.referrer.Some? <==> "referrer" in o) && (r.referrer.Some? ==> o["referrer"] == JStr(r.referrer.value))
    ensures (r.timezone.Some? <==> "timezone" in o) && (r.timezone.Some? ==> o["timezone"] == JStr(r.timezone.value))
  {
    TrackEvent(FromName(o["event"].s).value, o["page"].s, o["sessionId"].s,
               OptionalValue(o, "userId"), OptionalValue(o, "referrer"),
               o["userAgent"].s, OptionalValue(o, "timezone"), o["timestamp"].n.Floor)
  }

  /**
   * `validateTrackingEvent`: succeeds exactly when every key passes; the data
   * is then the body with undeclared keys stripped, and otherwise the issues
   * name exactly the failing keys.
   */
  function ValidateTrackingEvent(o: Object): (r: ValidationResult)
    ensures r.Success? <==> forall f :: FieldAccepts(o, f)
    ensures r.Failure? ==> |r.errors| > 0 && forall f :: f in r.errors <==> !FieldAccepts(o, f)
    ensures r.Success? ==> ToJson(r.data) == Declared(o)
    ensures r.Success? ==>
      r.data.page != "" && r.data.sessionId != "" && r.data.userAgent != "" && r.data.timestamp > 0
  {
    FieldsComplete();
    AcceptedEveryField(o);
    var errors := Issues(o, FIELDS);
    if errors == [] then
      ParsedDataIsDeclared(o);
      Success(Parsed(o))
    else
      assert errors[0] in errors;
      Failure(errors)
  }

  lemma ParsedDataIsDeclared(o: Object)
    requires Accepted(o)
    ensures ToJson(Parsed(o)) == Declared(o)
  {
    var j, d := ToJson(Parsed(o)), Declared(o);
    forall f | FieldKey(f) in o ensures FieldKey(f) in j && j[FieldKey(f)] == o[FieldKey(f)] {
      ParsedKeepsField(o, f);
    }
    forall k | k in d ensures k in j && j[k] == d[k] {
      var f :| f in FIELDS && FieldKey(f) == k && FieldKey(f) in o;
    }
    forall k | k in j ensures k in d {
      ToJsonKeys(Parsed(o), k);
      var f :| FieldKey(f) == k;
      ParsedKeyPresent(o, f);
      FieldsComplete();
    }
    assert j.Keys == d.Keys;
  }

  /** A key of the parsed data was present in the body. */
  lemma ParsedKeyPresent(o: Object, f: Field)
    requires Accepted(o) && FieldKey(f) in ToJson(Parsed(o))
    ensures FieldKey(f) in o
  {
    var t := Parsed(o);
    match f
    case UserIdField => ToJsonKeys(t, "userId");
    case ReferrerField => ToJsonKeys(t, "referrer");
    case TimezoneField => ToJsonKeys(t, "timezone");
    case _ =>
  }

  lemma ParsedKeepsField(o: Object, f: Field)
    requires Accepted(o) && FieldKey(f) in o
    ensures FieldKey(f) in ToJson(Parsed(o)) && ToJson(Parsed(o))[FieldKey(f)] == o[FieldKey(f)]
  {
    var t := Parsed(o);
    match f
    case EventField => assert Name(t.event) == o["event"].s;
    case TimestampField => assert t.timestamp as real == o["timestamp"].n;
    case _ =>
  }

  /** Which keys the JSON form of parsed data has. */
  lemma ToJsonKeys(t: TrackEvent, k: string)
    requires k in ToJson(t)
    ensures exists f :: FieldKey(f) == k
    ensures k == "userId" ==> t.userId.Some?
    ensures k == "referrer" ==> t.referrer.Some?
    ensures k == "timezone" ==> t.timezone.Some?
  {
    if k == "event" { assert FieldKey(EventField) == k; }
    else if k == "page" { assert FieldKey(PageField) == k; }
    else if k == "sessionId" { assert FieldKey(SessionIdField) == k; }
    else if k == "userAgent" { assert FieldKey(UserAgentField) == k; }
    else if k == "timestamp" { assert FieldKey(TimestampField) == k; }
    else if k == "userId" { assert FieldKey(UserIdField) == k; }
    else if k == "referrer" { assert FieldKey(ReferrerField) == k; }
    else { assert FieldKey(TimezoneField) == k; }
  }
}
