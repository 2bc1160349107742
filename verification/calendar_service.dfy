/** The Google Calendar wrapper of app/calendar_service.py: turning Google's
    event records into `EventResponse`s with defaults, building the bodies of
    insert and patch requests, and turning every `HttpError` of the API and a
    missing credential into a `CalendarError`.

    The Google API itself is a `GoogleApi` value whose members give the
    outcome of each request; `fromisoformat` and the current instant are part
    of the `Env`. */
module CalendarService {
  import opened Common
  import opened Models

  const NoTitle: string := "(no title)"
  const Confirmed: string := "confirmed"
  const MissingCredentialsMessage: string := "Google OAuth token not found. Complete the OAuth flow first."

  /** The settings and library functions the client depends on. `fromIso`
      is `datetime.fromisoformat` (`None` when it raises ValueError). */
  datatype Env = Env(timezone: string, fromIso: string -> Option<DateTime>, now: DateTime)

  /** The `start`/`end` object of a Google event; `None` is an absent key. */
  datatype GoogleTime = GoogleTime(dateTime: Option<string>, timeZone: Option<string>)

  /** The fields of a Google event record the client reads; `None` is an
      absent key. */
  datatype GoogleEvent = GoogleEvent(
    id: Option<string>,
    summary: Option<string>,
    description: Option<string>,
    start: Option<GoogleTime>,
    end: Option<GoogleTime>,
    updated: Option<string>,
    created: Option<string>,
    status: Option<string>,
    etag: Option<string>)

  /** How a request to the API can fail: Google answers with an HTTP error,
      or there are no stored credentials to build the service from. */
  datatype ApiError = HttpError(message: string) | NoCredentials

  /** The exceptions the client's operations raise: `CalendarError` (and its
      subclass `MissingCredentialsError`), or a `ValueError` from a date that
      does not parse or a record the response model rejects. */
  datatype Failure = CalendarError(message: string) | ValueError

  /** The Google API: the outcome of listing the requested window, of
      inserting a body, of patching an event with a body and of deleting an
      event. */
  datatype GoogleApi = GoogleApi(
    list: Result<seq<GoogleEvent>, ApiError>,
    insert: map<string, Json> -> Result<GoogleEvent, ApiError>,
    patch: (Json, map<string, Json>) -> Result<GoogleEvent, ApiError>,
    delete: Json -> Result<(), ApiError>)

  /** `except HttpError as exc: raise CalendarError(str(exc))`, together with
      the `MissingCredentialsError` that `_get_service` raises. */
  function CalendarErrorOf(e: ApiError): (r: Failure)
    ensures r.CalendarError?
    ensures e.HttpError? ==> r.message == e.message
  {
    match e
    case HttpError(m) => CalendarError(m)
    case NoCredentials => CalendarError(MissingCredentialsMessage)
  }

  // ---------------------------------------------------------------------
  // Reading Google's records.

  /** `value.replace("Z", "+00:00")`. */
  function ReplaceZ(s: string): (r: string)
    ensures 'Z' !in r
    ensures 'Z' !in s ==> r == s
  {
    if s == [] then []
    else (if s[0] == 'Z' then "+00:00" else [s[0]]) + ReplaceZ(s[1..])
  }

  /** The replacement works character by character. */
  lemma {:induction false} ReplaceZAppend(a: string, b: string)
    ensures ReplaceZ(a + b) == ReplaceZ(a) + ReplaceZ(b)
    decreases |a|
  {
    if a != [] {
      var head := if a[0] == 'Z' then "+00:00" else [a[0]];
      var ab := a + b;
      assert ab != [] && ab[0] == a[0] && ab[1..] == a[1..] + b;
      assert ReplaceZ(ab) == head + ReplaceZ(a[1..] + b);
      ReplaceZAppend(a[1..], b);
      assert ReplaceZ(a) == head + ReplaceZ(a[1..]);
    } else {
      assert a + b == b;
    }
  }

  /** A 'Z' becomes the UTC offset "+00:00". */
  lemma ReplaceZOfZ()
    ensures ReplaceZ("Z") == "+00:00"
  {
    assert "Z"[1..] == [];
  }

  /** A key that is present with a non-empty text (Python truthiness). */
  predicate Given(x: Option<string>)
  {
    x.Some? && x.value != []
  }

  /** `_parse_rfc3339`: an absent or empty value is the current instant. */
  function ParseRfc3339(value: Option<string>, env: Env): (r: Option<DateTime>)
    ensures !Given(value) ==> r == Some(env.now)
    ensures Given(value) && 'Z' !in value.value ==> r == env.fromIso(value.value)
  {
    if !Given(value) then Some(env.now)
    else env.fromIso(ReplaceZ(value.value))
  }

  /** A UTC stamp in Google's form, such as "2024-05-01T10:00:00Z", is read
      as the same text with the offset "+00:00" in place of the 'Z'. */
  lemma ParseRfc3339Utc(stamp: string, env: Env)
    requires 'Z' !in stamp
    ensures ParseRfc3339(Some(stamp + "Z"), env) == env.fromIso(stamp + "+00:00")
  {
    ReplaceZAppend(stamp, "Z");
    ReplaceZOfZ();
  }

  /** `x or y` on optional strings. */
  function OrElse(x: Option<string>, y: Option<string>): Option<string>
  {
    if Given(x) then x else y
  }

  /** `event.get(key, {}).get("dateTime")`. */
  function DateTimeText(t: Option<GoogleTime>): Option<string>
  {
    if t.Some? then t.value.dateTime else None
  }

  /** `_normalize_event`. `None` when it raises: a date that does not parse,
      or a record without an id, which `EventResponse` rejects. */
  function NormalizeEvent(e: GoogleEvent, env: Env): (r: Option<EventResponse>)
    ensures r.Some? <==>
              && e.id.Some?
              && ParseRfc3339(DateTimeText(e.start), env).Some?
              && ParseRfc3339(DateTimeText(e.end), env).Some?
              && (Given(OrElse(e.updated, e.created)) ==> ParseRfc3339(OrElse(e.updated, e.created), env).Some?)
    ensures r.Some? ==> Some(r.value.startTime) == ParseRfc3339(DateTimeText(e.start), env)
    ensures r.Some? ==> Some(r.value.endTime) == ParseRfc3339(DateTimeText(e.end), env)
    ensures r.Some? ==> e.id.Some? && r.value.id == e.id.value
    ensures r.Some? ==> r.value.summary == if e.summary.Some? then e.summary.value else NoTitle
    ensures r.Some? ==> r.value.status == if e.status.Some? then e.status.value else Confirmed
    ensures r.Some? ==> r.value.description == e.description && r.value.etag == e.etag
    ensures r.Some? ==>
              r.value.timezone == if e.start.Some? && Given(e.start.value.timeZone) then e.start.value.timeZone.value else env.timezone
    ensures r.Some? ==> (r.value.updatedAt.Some? <==> Given(e.updated) || Given(e.created))
    ensures r.Some? && Given(e.updated) ==> r.value.updatedAt == ParseRfc3339(e.updated, env)
    ensures r.Some? && !Given(e.updated) && Given(e.created) ==> r.value.updatedAt == ParseRfc3339(e.created, env)
  {
    var start := if e.start.Some? then e.start.value else GoogleTime(None, None);
    var zone := OrElse(start.timeZone, Some(env.timezone)).value;
    var startTime := ParseRfc3339(DateTimeText(e.start), env);
    var endTime := ParseRfc3339(DateTimeText(e.end), env);
    var updated := OrElse(e.updated, e.created);
    var updatedTime := if Given(updated) then ParseRfc3339(updated, env) else None;
    if e.id.None? || startTime.None? || endTime.None? || (Given(updated) && updatedTime.None?) then None
    else
      Some(EventResponse(
        e.id.value,
        if e.summary.Some? then e.summary.value else NoTitle,
        e.description,
        startTime.value,
        endTime.value,
        zone,
        if e.status.Some? then e.status.value else Confirmed,
        updatedTime,
        e.etag))
  }

  /** The record Google would hold for a response (times written as their
      `isoformat` text). */
  function RecordOf(r: EventResponse): GoogleEvent
  {
    GoogleEvent(
      Some(r.id), Some(r.summary), r.description,
      Some(GoogleTime(Some(r.startTime.iso), Some(r.timezone))),
      Some(GoogleTime(Some(r.endTime.iso), Some(r.timezone))),
      if r.updatedAt.Some? then Some(r.updatedAt.value.iso) else None,
      None, Some(r.status), r.etag)
  }

  /** Normalizing the record of a response gives the response back, as long
      as its zone is not empty and each of its times is written as a
      non-empty `isoformat` text that `fromisoformat` reads back. */
  lemma NormalizeRecordOf(r: EventResponse, env: Env)
    requires r.timezone != []
    requires forall t :: t in [r.startTime, r.endTime] + (if r.updatedAt.Some? then [r.updatedAt.value] else []) ==>
               t.iso != [] && 'Z' !in t.iso && env.fromIso(t.iso) == Some(t)
    ensures NormalizeEvent(RecordOf(r), env) == Some(r)
  {
    assert r.startTime in [r.startTime, r.endTime];
    assert r.endTime in [r.startTime, r.endTime];
    if r.updatedAt.Some? {
      assert r.updatedAt.value in [r.startTime, r.endTime] + [r.updatedAt.value];
    }
  }

  /** The list comprehension over the returned items: `None` when any item
      fails to normalize. */
  function NormalizeAll(items: seq<GoogleEvent>, env: Env): (r: Option<seq<EventResponse>>)
    ensures r.Some? <==> forall i :: 0 <= i < |items| ==> NormalizeEvent(items[i], env).Some?
    ensures r.Some? ==> |r.value| == |items|
    ensures r.Some? ==> forall i :: 0 <= i < |items| ==> Some(r.value[i]) == NormalizeEvent(items[i], env)
    decreases |items|
  {
    if items == [] then Some([])
    else
      var head := NormalizeEvent(items[0], env);
      var rest := NormalizeAll(items[1..], env);
      assert forall i :: 1 <= i < |items| ==> items[i] == items[1..][i - 1];
      if head.None? || rest.None? then None
      else
        var all := [head.value] + rest.value;
        assert forall i :: 1 <= i < |items| ==> all[i] == rest.value[i - 1];
        Some(all)
  }

  // ---------------------------------------------------------------------
  // The operations.

  /** `list_events` over the window whose items `api.list` returns. */
  function ListEvents(api: GoogleApi, env: Env): (r: Result<seq<EventResponse>, Failure>)
    ensures api.list.Failure? ==> r == Failure(CalendarErrorOf(api.list.error))
    ensures api.list.Success? && r.Failure? ==> r.error == ValueError
    ensures r.Success? ==> api.list.Success? && Some(r.value) == NormalizeAll(api.list.value, env)
    ensures r.Success? <==> api.list.Success? && NormalizeAll(api.list.value, env).Some?
  {
    match api.list
    case Failure(e) => Failure(CalendarErrorOf(e))
    case Success(items) =>
      var events := NormalizeAll(items, env);
      if events.None? then Failure(ValueError) else Success(events.value)
  }

  /** A `start` or `end` entry of a request body. */
  function TimeEntry(t: DateTime, zone: string): Json
  {
    JObj(map["dateTime" := JStr(t.iso), "timeZone" := JStr(zone)])
  }

  /** The body `create_event` inserts. */
  function CreateBody(req: EventCreateRequest, env: Env): (body: map<string, Json>)
    ensures body.Keys == {"summary", "description", "start", "end"}
    ensures body["summary"] == JStr(req.summary)
    ensures body["description"] == if req.description.Some? then JStr(req.description.value) else JNull
    ensures var zone := if Given(req.timezone) then req.timezone.value else env.timezone;
            body["start"] == TimeEntry(req.startTime, zone) && body["end"] == TimeEntry(req.endTime, zone)
  {
    var zone := OrElse(req.timezone, Some(env.timezone)).value;
    map[
      "summary" := JStr(req.summary),
      "description" := if req.description.Some? then JStr(req.description.value) else JNull,
      "start" := TimeEntry(req.startTime, zone),
      "end" := TimeEntry(req.endTime, zone)
    ]
  }

  /** `create_event`. */
  function CreateEvent(api: GoogleApi, env: Env, req: EventCreateRequest): (r: Result<EventResponse, Failure>)
    ensures api.insert(CreateBody(req, env)).Failure? ==> r == Failure(CalendarErrorOf(api.insert(CreateBody(req, env)).error))
    ensures r.Success? ==> api.insert(CreateBody(req, env)).Success?
                           && Some(r.value) == NormalizeEvent(api.insert(CreateBody(req, env)).value, env)
    ensures r.Success? <==> api.insert(CreateBody(req, env)).Success?
                            && NormalizeEvent(api.insert(CreateBody(req, env)).value, env).Some?
    ensures r.Failure? && api.insert(CreateBody(req, env)).Success? ==> r.error == ValueError
  {
    match api.insert(CreateBody(req, env))
    case Failure(e) => Failure(CalendarErrorOf(e))
    case Success(event) =>
      var resp := NormalizeEvent(event, env);
      if resp.None? then Failure(ValueError) else Success(resp.value)
  }

  /** The body `update_event` sends: only the supplied fields, each time
      written with the configured zone. */
  function PatchBody(req: EventUpdateRequest, zone: string): (body: map<string, Json>)
    ensures body.Keys <= {"summary", "description", "start", "end"}
    ensures "summary" in body <==> req.summary.Some?
    ensures "summary" in body ==> body["summary"] == JStr(req.summary.value)
    ensures "description" in body <==> req.description.Some?
    ensures "description" in body ==> body["description"] == JStr(req.description.value)
    ensures "start" in body <==> req.startTime.Some?
    ensures "start" in body ==> body["start"] == TimeEntry(req.startTime.value, zone)
    ensures "end" in body <==> req.endTime.Some?
    ensures "end" in body ==> body["end"] == TimeEntry(req.endTime.value, zone)
  {
    var withSummary := if req.summary.Some? then map["summary" := JStr(req.summary.value)] else map[];
    var withDescription := if req.description.Some? then withSummary["description" := JStr(req.description.value)] else withSummary;
    var withStart :=
      if req.startTime.Some? then withDescription["start" := TimeEntry(req.startTime.value, zone)]
      else withDescription;
    if req.endTime.Some? then withStart["end" := TimeEntry(req.endTime.value, zone)]
    else withStart
  }

  /** The patch body is empty exactly when the request supplies nothing. */
  lemma PatchBodyEmpty(req: EventUpdateRequest, zone: string)
    ensures PatchBody(req, zone) == map[] <==> req == EventUpdateRequest(None, None, None, None)
  {
    if req.summary.Some? { assert "summary" in PatchBody(req, zone); }
    if req.description.Some? { assert "description" in PatchBody(req, zone); }
    if req.startTime.Some? { assert "start" in PatchBody(req, zone); }
    if req.endTime.Some? { assert "end" in PatchBody(req, zone); }
  }

  /** `body.setdefault(key, {})`, read as the entry's fields. */
  function EntryOf(body: map<string, Json>, key: string): map<string, Json>
  {
    if key in body && body[key].JObj? then body[key].fields else map[]
  }

  /** Lines 130-140 of `update_event`: the body built step by step with
      `setdefault`. */
  method BuildPatchBody(req: EventUpdateRequest, zone: string) returns (body: map<string, Json>)
    ensures body == PatchBody(req, zone)
  {
    body := map[];
    if req.summary.Some? {
      body := body["summary" := JStr(req.summary.value)];
    }
    if req.description.Some? {
      body := body["description" := JStr(req.description.value)];
    }
    if req.startTime.Some? {
      var start := EntryOf(body, "start");
      start := start["dateTime" := JStr(req.startTime.value.iso)];
      if "timeZone" !in start {
        start := start["timeZone" := JStr(zone)];
      }
      body := body["start" := JObj(start)];
    }
    if req.endTime.Some? {
      var end := EntryOf(body, "end");
      end := end["dateTime" := JStr(req.endTime.value.iso)];
      if "timeZone" !in end {
        end := end["timeZone" := JStr(zone)];
      }
      body := body["end" := JObj(end)];
    }
  }

  /** `update_event`. */
  function UpdateEvent(api: GoogleApi, env: Env, eventId: Json, req: EventUpdateRequest): (r: Result<EventResponse, Failure>)
    ensures api.patch(eventId, PatchBody(req, env.timezone)).Failure? ==>
              r == Failure(CalendarErrorOf(api.patch(eventId, PatchBody(req, env.timezone)).error))
    ensures r.Success? ==> api.patch(eventId, PatchBody(req, env.timezone)).Success?
                           && Some(r.value) == NormalizeEvent(api.patch(eventId, PatchBody(req, env.timezone)).value, env)
    ensures r.Success? <==> api.patch(eventId, PatchBody(req, env.timezone)).Success?
                            && NormalizeEvent(api.patch(eventId, PatchBody(req, env.timezone)).value, env).Some?
    ensures r.Failure? && api.patch(eventId, PatchBody(req, env.timezone)).Success? ==> r.error == ValueError
  {
    match api.patch(eventId, PatchBody(req, env.timezone))
    case Failure(e) => Failure(CalendarErrorOf(e))
    case Success(event) =>
      var resp := NormalizeEvent(event, env);
      if resp.None? then Failure(ValueError) else Success(resp.value)
  }

  /** `delete_event`. */
  function DeleteEvent(api: GoogleApi, eventId: Json): (r: Result<(), Failure>)
    ensures r.Success? <==> api.delete(eventId).Success?
    ensures r.Failure? ==> r.error == CalendarErrorOf(api.delete(eventId).error)
  {
    match api.delete(eventId)
    case Failure(e) => Failure(CalendarErrorOf(e))
    case Success(_) => Success(())
  }
}
