/**
 * The `Event` document of the event store: its record shape, the checks the
 * document schema applies when an event is saved, and the collection the
 * consumer appends to.
 */
module EventModel {
  import opened Wrappers
  import opened Json

  /** The four event types the schema's enum admits. */
  datatype EventType = PageView | Click | SessionStart | SessionEnd

  /** The wire name of an event type. */
  function Name(t: EventType): string
  {
    match t
    case PageView => "page_view"
    case Click => "click"
    case SessionStart => "session_start"
    case SessionEnd => "session_end"
  }

  /** The event type with the given wire name, if it is one of the four. */
  function FromName(s: string): (r: Option<EventType>)
    ensures r.Some? ==> Name(r.value) == s
    ensures forall t :: Name(t) == s ==> r == Some(t)
  {
    if s == "page_view" then Some(PageView)
    else if s == "click" then Some(Click)
    else if s == "session_start" then Some(SessionStart)
    else if s == "session_end" then Some(SessionEnd)
    else None
  }

  /**
   * A stored event. `event`, `page`, `sessionId` and `timestamp` are required;
   * the descriptive strings are optional; `createdAt` (epoch milliseconds) is
   * the time of insertion unless the document supplies one.
   */
  datatype Event = Event(
    event: EventType,
    page: string,
    sessionId: string,
    userId: Option<string>,
    referrer: Option<string>,
    ip: Option<string>,
    userAgent: Option<string>,
    timezone: Option<string>,
    timestamp: real,
    createdAt: Option<real>)

  /** The schema's paths. */
  datatype Path = EventPath | PagePath | SessionIdPath | UserIdPath | ReferrerPath | IpPath
                | UserAgentPath | TimezonePath | TimestampPath | CreatedAtPath

  /** The document key of a path. */
  function Key(p: Path): string
  {
    match p
    case EventPath => "event"
    case PagePath => "page"
    case SessionIdPath => "sessionId"
    case UserIdPath => "userId"
    case ReferrerPath => "referrer"
    case IpPath => "ip"
    case UserAgentPath => "userAgent"
    case TimezonePath => "timezone"
    case TimestampPath => "timestamp"
    case CreatedAtPath => "createdAt"
  }

  /** The paths in declaration order. */
  const PATHS: seq<Path> := [EventPath, PagePath, SessionIdPath, UserIdPath, ReferrerPath, IpPath,
                             UserAgentPath, TimezonePath, TimestampPath, CreatedAtPath]

  lemma PathsComplete()
    ensures forall p :: p in PATHS
  {
    forall p ensures p in PATHS {
      match p
      case EventPath => assert PATHS[0] == p;
      case PagePath => assert PATHS[1] == p;
      case SessionIdPath => assert PATHS[2] == p;
      case UserIdPath => assert PATHS[3] == p;
      case ReferrerPath => assert PATHS[4] == p;
      case IpPath => assert PATHS[5] == p;
      case UserAgentPath => assert PATHS[6] == p;
      case TimezonePath => assert PATHS[7] == p;
      case TimestampPath => assert PATHS[8] == p;
      case CreatedAtPath => assert PATHS[9] == p;
    }
  }

  /** A required String path holds a non-empty string (null, undefined and '' fail `required`). */
  predicate HasText(o: Object, key: string)
  {
    key in o && o[key].JStr? && o[key].s != ""
  }

  /** An optional String path is absent, null or a string. */
  predicate OptionalText(o: Object, key: string)
  {
    key !in o || o[key].JNull? || o[key].JStr?
  }

  /**
   * The schema, path by path: does the document's value at `p` pass the
   * schema's cast and validators?
   */
  predicate PathAccepts(o: Object, p: Path)
  {
    match p
    case EventPath => HasText(o, "event") && FromName(o["event"].s).Some?
    case PagePath => HasText(o, "page")
    case SessionIdPath => HasText(o, "sessionId")
    case TimestampPath => "timestamp" in o && o["timestamp"].JNum?
    case CreatedAtPath => "createdAt" !in o || o["createdAt"].JNull? || o["createdAt"].JNum?
    case _ => OptionalText(o, Key(p))
  }

  /** The string at an optional path, `None` when absent or null. */
  function StringAt(o: Object, key: string): Option<string>
  {
    if key in o && o[key].JStr? then Some(o[key].s) else None
  }

  /** The paths of `paths` whose values the schema rejects, in order. */
  function Rejected(o: Object, paths: seq<Path>): (r: seq<Path>)
    ensures forall p :: p in r <==> p in paths && !PathAccepts(o, p)
  {
    if paths == [] then []
    else (if PathAccepts(o, paths[0]) then [] else [paths[0]]) + Rejected(o, paths[1..])
  }

  /** `createdAt` defaults to the insertion time `now` when the document has none. */
  function CreatedAtOf(o: Object, now: int): (r: Option<real>)
    ensures "createdAt" !in o ==> r == Some(now as real)
    ensures "createdAt" in o && o["createdAt"].JNum? ==> r == Some(o["createdAt"].n)
    ensures r.None? <==> "createdAt" in o && !o["createdAt"].JNum?
  {
    if "createdAt" !in o then Some(now as real)
    else if o["createdAt"].JNum? then Some(o["createdAt"].n)
    else None
  }

  /**
   * `new Event(doc)` followed by the validation `save` runs: the document built
   * from a decoded value, or the paths that fail, in schema order. Keys outside
   * the schema are dropped; a value that is not an object has no fields.
   */
  function ToDocument(value: Json, now: int): (r: Result<Event, seq<Path>>)
    ensures r.Ok? <==> forall p :: PathAccepts(FieldsOf(value), p)
    ensures r.Err? ==> |r.error| > 0
    ensures r.Err? ==> forall p :: p in r.error <==> !PathAccepts(FieldsOf(value), p)
    ensures r.Ok? ==> var o := FieldsOf(value);
      && HasText(o, "event") && HasText(o, "page") && HasText(o, "sessionId")
      && "timestamp" in o && o["timestamp"].JNum?
      && Name(r.value.event) == o["event"].s
      && r.value.page == o["page"].s && r.value.sessionId == o["sessionId"].s
      && r.value.page != "" && r.value.sessionId != ""
      && r.value.timestamp == o["timestamp"].n
      && r.value.userId == StringAt(o, "userId") && r.value.referrer == StringAt(o, "referrer")
      && r.value.ip == StringAt(o, "ip") && r.value.userAgent == StringAt(o, "userAgent")
      && r.value.timezone == StringAt(o, "timezone")
      && ("createdAt" !in o ==> r.value.createdAt == Some(now as real))
  {
    var o := FieldsOf(value);
    var errors := Rejected(o, PATHS);
    PathsComplete();
    if errors == [] then
      assert PathAccepts(o, EventPath) && PathAccepts(o, PagePath) && PathAccepts(o, SessionIdPath);
      assert PathAccepts(o, TimestampPath);
      Ok(Event(FromName(o["event"].s).value, o["page"].s, o["sessionId"].s,
               StringAt(o, "userId"), StringAt(o, "referrer"), StringAt(o, "ip"),
               StringAt(o, "userAgent"), StringAt(o, "timezone"),
               o["timestamp"].n, CreatedAtOf(o, now)))
    else
      assert errors[0] in errors;
      Err(errors)
  }

  /** A value that fails `required`: absent, null, or the empty string (which Mongoose casts to null for a Number path). */
  predicate Missing(o: Object, key: string)
  {
    key !in o || o[key].JNull? || (o[key].JStr? && o[key].s == "")
  }

  /** The schema's `required` paths. */
  predicate IsRequired(p: Path)
  {
    p == EventPath || p == PagePath || p == SessionIdPath || p == TimestampPath
  }

  /** The cast kind Mongoose names for a path's schema type. */
  function CastKind(p: Path): string
  {
    match p
    case TimestampPath => "Number"
    case CreatedAtPath => "date"
    case _ => "string"
  }

  /** The `required` validator's message. */
  function RequiredMessage(key: string): string
  {
    "Path `" + key + "` is required."
  }

  /** The `enum` validator's message for the `event` path. */
  function EnumMessage(value: string): string
  {
    "`" + value + "` is not a valid enum value for path `event`."
  }

  /** A cast error's message, without the rendered value and its type. */
  function CastMessage(kind: string, key: string): string
  {
    "Cast to " + kind + " failed at path \"" + key + "\""
  }

  /**
   * The message Mongoose records for path `p` of document `o`: `required`
   * when a required value is missing, `enum` when `event` holds another
   * string, and a cast error when the value has the wrong JSON type.
   */
  function Complaint(o: Object, p: Path): (r: string)
    ensures r == RequiredMessage(Key(p)) <==> IsRequired(p) && Missing(o, Key(p))
    ensures (exists s :: r == EnumMessage(s)) <==>
      p == EventPath && !Missing(o, "event") && o["event"].JStr?
    ensures p == EventPath && !Missing(o, "event") && o["event"].JStr? ==> r == EnumMessage(o["event"].s)
    ensures (!IsRequired(p) || !Missing(o, Key(p))) && !(p == EventPath && o["event"].JStr?) ==>
      r == CastMessage(CastKind(p), Key(p))
  {
    if IsRequired(p) && Missing(o, Key(p)) then
      var r := RequiredMessage(Key(p));
      assert r[0] == 'P';
      forall s ensures r != EnumMessage(s) { assert EnumMessage(s)[0] == '`'; }
      r
    else if p == EventPath && o["event"].JStr? then
      var r := EnumMessage(o["event"].s);
      assert r[0] == '`' && RequiredMessage(Key(p))[0] == 'P';
      r
    else
      var r := CastMessage(CastKind(p), Key(p));
      assert r[0] == 'C' && RequiredMessage(Key(p))[0] == 'P';
      forall s ensures r != EnumMessage(s) { assert EnumMessage(s)[0] == '`'; }
      r
  }

  /** One entry of a `ValidationError`: a failing path and its message. */
  datatype PathError = PathError(path: Path, message: string)

  /** The `ValidationError` entries for the failing `paths` of `o`, in the same order. */
  function Complaints(o: Object, paths: seq<Path>): (r: seq<PathError>)
    ensures |r| == |paths|
    ensures forall i :: 0 <= i < |paths| ==> r[i].path == paths[i] && r[i].message == Complaint(o, paths[i])
  {
    if paths == [] then [] else [PathError(paths[0], Complaint(o, paths[0]))] + Complaints(o, paths[1..])
  }

  /** Why `save` threw: the schema rejected the document, or the database write failed. */
  datatype SaveError = ValidationFailed(errors: seq<PathError>) | WriteFailed(message: string)

  /** The entries `path: message`, separated by `, `. */
  function JoinEntries(errors: seq<PathError>): (r: string)
    ensures |errors| == 1 ==> r == Key(errors[0].path) + ": " + errors[0].message
    ensures |errors| > 1 ==> r == Key(errors[0].path) + ": " + errors[0].message + ", " + JoinEntries(errors[1..])
  {
    if |errors| == 0 then ""
    else if |errors| == 1 then Key(errors[0].path) + ": " + errors[0].message
    else Key(errors[0].path) + ": " + errors[0].message + ", " + JoinEntries(errors[1..])
  }

  const VALIDATION_FAILED: string := "Event validation failed: "

  /** The thrown error's `message`: the model name's `validation failed` line, or the driver's message. */
  function ErrorMessage(e: SaveError): (r: string)
    ensures e.ValidationFailed? ==> |r| >= |VALIDATION_FAILED| && r[..|VALIDATION_FAILED|] == VALIDATION_FAILED
    ensures e.ValidationFailed? ==> r[|VALIDATION_FAILED|..] == JoinEntries(e.errors)
    ensures e.WriteFailed? ==> r == e.message
  {
    match e
    case ValidationFailed(errors) => VALIDATION_FAILED + JoinEntries(errors)
    case WriteFailed(message) => message
  }

  /** `t` appears in `s` starting at position `k`. */
  predicate AppearsAt(s: string, t: string, k: nat)
  {
    k + |t| <= |s| && s[k..k + |t|] == t
  }

  /** An entry as the message writes it: `path: message`. */
  function EntryText(e: PathError): string
  {
    Key(e.path) + ": " + e.message
  }

  /** Text before a string shifts where its parts appear. */
  lemma AppearsAfter(a: string, b: string, t: string, k: nat)
    requires AppearsAt(b, t, k)
    ensures AppearsAt(a + b, t, |a| + k)
  {
    assert (a + b)[|a| + k..|a| + k + |t|] == b[k..k + |t|];
  }

  /** Every entry's text appears in the joined entries. */
  lemma {:induction false} EntryInJoin(errors: seq<PathError>, i: nat)
    requires i < |errors|
    ensures exists k :: AppearsAt(JoinEntries(errors), EntryText(errors[i]), k)
  {
    var head := EntryText(errors[0]);
    if i == 0 {
      var j := JoinEntries(errors);
      assert j[..|head|] == head;
      assert AppearsAt(j, head, 0);
    } else {
      EntryInJoin(errors[1..], i - 1);
      var k :| AppearsAt(JoinEntries(errors[1..]), EntryText(errors[1..][i - 1]), k);
      AppearsAfter(head + ", ", JoinEntries(errors[1..]), EntryText(errors[i]), k);
      assert JoinEntries(errors) == head + ", " + JoinEntries(errors[1..]);
    }
  }

  /** Every failing path's `path: message` entry appears in the validation error's message. */
  lemma EntryInMessage(errors: seq<PathError>, i: nat)
    requires i < |errors|
    ensures exists k :: AppearsAt(ErrorMessage(ValidationFailed(errors)), EntryText(errors[i]), k)
  {
    EntryInJoin(errors, i);
    var k :| AppearsAt(JoinEntries(errors), EntryText(errors[i]), k);
    AppearsAfter(VALIDATION_FAILED, JoinEntries(errors), EntryText(errors[i]), k);
    assert ErrorMessage(ValidationFailed(errors)) == VALIDATION_FAILED + JoinEntries(errors);
    assert AppearsAt(ErrorMessage(ValidationFailed(errors)), EntryText(errors[i]), |VALIDATION_FAILED| + k);
  }

  /** The outcome of saving a decoded value when the database write fails with `writeError`, if any. */
  function SaveOutcome(value: Json, now: int, writeError: Option<string>): (r: Result<Event, SaveError>)
    ensures r.Ok? <==> ToDocument(value, now).Ok? && writeError.None?
    ensures r.Ok? ==> r.value == ToDocument(value, now).value
    ensures ToDocument(value, now).Err? ==>
      r == Err(ValidationFailed(Complaints(FieldsOf(value), ToDocument(value, now).error)))
    ensures ToDocument(value, now).Ok? && writeError.Some? ==> r == Err(WriteFailed(writeError.value))
  {
    match ToDocument(value, now)
    case Err(paths) => Err(ValidationFailed(Complaints(FieldsOf(value), paths)))
    case Ok(e) => if writeError.Some? then Err(WriteFailed(writeError.value)) else Ok(e)
  }

  /** A required path whose value is missing fails the schema. */
  lemma MissingFails(o: Object, p: Path)
    requires IsRequired(p) && Missing(o, Key(p))
    ensures !PathAccepts(o, p)
  {
  }

  /** A missing required value makes `save` fail with that path's `required` entry. */
  lemma MissingRequiredEntry(value: Json, now: int, writeError: Option<string>, p: Path)
    requires IsRequired(p) && Missing(FieldsOf(value), Key(p))
    ensures var r := SaveOutcome(value, now, writeError);
      r.Err? && r.error.ValidationFailed? && PathError(p, RequiredMessage(Key(p))) in r.error.errors
  {
    var o := FieldsOf(value);
    MissingFails(o, p);
    var d := ToDocument(value, now);
    assert d.Err? && p in d.error;
    var i :| 0 <= i < |d.error| && d.error[i] == p;
    var errors := Complaints(o, d.error);
    assert Complaint(o, p) == RequiredMessage(Key(p));
    assert errors[i] == PathError(p, RequiredMessage(Key(p)));
  }

  /** An `event` string outside the enum makes `save` fail with the `enum` entry naming it. */
  lemma NotInEnumEntry(value: Json, now: int, writeError: Option<string>)
    requires var o := FieldsOf(value);
      "event" in o && o["event"].JStr? && o["event"].s != "" && FromName(o["event"].s).None?
    ensures var r := SaveOutcome(value, now, writeError);
      && r.Err? && r.error.ValidationFailed?
      && PathError(EventPath, EnumMessage(FieldsOf(value)["event"].s)) in r.error.errors
  {
    var o := FieldsOf(value);
    assert !PathAccepts(o, EventPath);
    var paths := ToDocument(value, now).error;
    var i :| 0 <= i < |paths| && paths[i] == EventPath;
    assert SaveOutcome(value, now, writeError).error.errors[i] == PathError(EventPath, EnumMessage(o["event"].s));
  }

  /** The events collection: an append-only sequence of stored events. */
  class EventCollection {
    var events: seq<Event>

    constructor ()
      ensures events == []
    {
      events := [];
    }

    /** `new Event(value).save()`: appends the document exactly when validation and the write succeed. */
    method Save(value: Json, now: int, writeError: Option<string>) returns (r: Result<Event, SaveError>)
      modifies this
      ensures r == SaveOutcome(value, now, writeError)
      ensures r.Ok? ==> r.value == ToDocument(value, now).value
      ensures r.Err? && r.error.ValidationFailed? ==> ToDocument(value, now).Err?
      ensures events == if r.Ok? then old(events) + [r.value] else old(events)
    {
      r := SaveOutcome(value, now, writeError);
      if r.Ok? {
        events := events + [r.value];
      }
    }
  }
}
