/** The SMS intent dispatcher of app/main.py: the payload validators that
    turn a parsed payload into a create or update request, and
    `handle_intent`, which runs the calendar operation an intent asks for and
    maps its outcome, or the error it raised, to a reply text.

    `datetime.fromisoformat` is the `fromIso` member of the calendar `Env`;
    `format_local_time` and `format_event_line` are the members of a
    `Format` value. */
module Dispatch {
  import opened Common
  import opened Models
  import opened CalendarService

  // ---------------------------------------------------------------------
  // The request models' validation (pydantic, extra keys ignored).

  /** A required `str` field. */
  function StrField(data: map<string, Json>, key: string): Option<string>
  {
    if key in data && data[key].JStr? then Some(data[key].s) else None
  }

  /** A required `datetime` field (after the conversion of texts). */
  function TimeField(data: map<string, Json>, key: string): Option<DateTime>
  {
    if key in data && data[key].JTime? then Some(data[key].t) else None
  }

  /** An `Optional[str]` field: `Some(None)` when absent or null, `None` when
      the value is rejected. */
  function OptStrField(data: map<string, Json>, key: string): Option<Option<string>>
  {
    if key !in data || data[key].JNull? then Some(None)
    else if data[key].JStr? then Some(Some(data[key].s))
    else None
  }

  /** An `Optional[datetime]` field, read like `OptStrField`. */
  function OptTimeField(data: map<string, Json>, key: string): Option<Option<DateTime>>
  {
    if key !in data || data[key].JNull? then Some(None)
    else if data[key].JTime? then Some(Some(data[key].t))
    else None
  }

  /** `EventCreateRequest(**data)`; `None` when validation fails. */
  function CreateRequestOf(data: map<string, Json>): Option<EventCreateRequest>
  {
    var summary := StrField(data, "summary");
    var start := TimeField(data, "start_time");
    var end := TimeField(data, "end_time");
    var description := OptStrField(data, "description");
    var zone := OptStrField(data, "timezone");
    if summary.None? || start.None? || end.None? || description.None? || zone.None? then None
    else Some(EventCreateRequest(summary.value, start.value, end.value, description.value, zone.value))
  }

  /** `EventUpdateRequest(**data)`; `None` when validation fails. */
  function UpdateRequestOf(data: map<string, Json>): Option<EventUpdateRequest>
  {
    var summary := OptStrField(data, "summary");
    var start := OptTimeField(data, "start_time");
    var end := OptTimeField(data, "end_time");
    var description := OptStrField(data, "description");
    if summary.None? || start.None? || end.None? || description.None? then None
    else Some(EventUpdateRequest(summary.value, start.value, end.value, description.value))
  }

  // ---------------------------------------------------------------------
  // The validators.

  const RequiredForCreate: seq<string> := ["summary", "start_time", "end_time"]
  const TimeKeys: seq<string> := ["start_time", "end_time"]

  /** `payload or {}`. */
  function OrEmpty(payload: Option<map<string, Json>>): map<string, Json>
  {
    if payload.Some? then payload.value else map[]
  }

  /** The time a payload value stands for: a datetime, or a text that
      `fromisoformat` reads. */
  function TimeOf(v: Json, env: Env): Option<DateTime>
  {
    match v
    case JTime(t) => Some(t)
    case JStr(s) => env.fromIso(s)
    case _ => None
  }

  /** Replace a text under `key` by the datetime it denotes; `None` when
      `fromisoformat` raises. */
  function ConvertTime(data: map<string, Json>, key: string, env: Env): (r: Option<map<string, Json>>)
    ensures r.Some? ==> r.value.Keys == data.Keys
    ensures r.Some? ==> forall k :: k in data && k != key ==> r.value[k] == data[k]
    ensures key in data && data[key].JStr? ==> (r.Some? <==> env.fromIso(data[key].s).Some?)
    ensures r.Some? && key in data && (data[key].JStr? || data[key].JTime?) ==> r.value[key] == JTime(TimeOf(data[key], env).value)
    ensures !(key in data && data[key].JStr?) ==> r == Some(data)
  {
    if key in data && data[key].JStr? then
      match env.fromIso(data[key].s)
      case None => None
      case Some(t) => Some(data[key := JTime(t)])
    else Some(data)
  }

  /** Some time text under one of `keys` is one `fromisoformat` rejects. */
  predicate BadTime(data: map<string, Json>, keys: seq<string>, env: Env)
  {
    exists k :: k in keys && k in data && data[k].JStr? && env.fromIso(data[k].s).None?
  }

  /** The conversion loop: replace the text under each of `keys`, in order,
      by the datetime it denotes; `None` as soon as one does not parse. */
  function ConvertKeys(data: map<string, Json>, keys: seq<string>, env: Env): Option<map<string, Json>>
    decreases |keys|
  {
    if keys == [] then Some(data)
    else
      match ConvertTime(data, keys[0], env)
      case None => None
      case Some(d) => ConvertKeys(d, keys[1..], env)
  }

  /** Over the two time keys the conversion fails exactly on a time text
      that does not parse, keeps every other value, and leaves a datetime
      under each time key that held a text or a datetime. */
  lemma ConvertTimeKeys(data: map<string, Json>, env: Env)
    ensures ConvertKeys(data, TimeKeys, env).None? <==> BadTime(data, TimeKeys, env)
    ensures var r := ConvertKeys(data, TimeKeys, env);
            r.Some? ==> && r.value.Keys == data.Keys
                        && (forall k :: k in data && k !in TimeKeys ==> r.value[k] == data[k])
                        && (forall k :: k in data && k in TimeKeys && (data[k].JStr? || data[k].JTime?) ==>
                              r.value[k] == JTime(TimeOf(data[k], env).value))
                        && (forall k :: k in data && k in TimeKeys && !data[k].JStr? ==> r.value[k] == data[k])
  {
    assert TimeKeys[0] == "start_time" && TimeKeys[1..] == ["end_time"] && TimeKeys[1..][1..] == [];
    var first := ConvertTime(data, "start_time", env);
    assert forall k :: k in TimeKeys <==> k == "start_time" || k == "end_time";
    if first.Some? {
      var second := ConvertTime(first.value, "end_time", env);
      assert ConvertKeys(data, TimeKeys, env) == second;
      if second.None? {
        assert BadTime(data, TimeKeys, env) by {
          assert "end_time" in data && data["end_time"].JStr? && env.fromIso(data["end_time"].s).None?;
        }
      }
    } else {
      assert BadTime(data, TimeKeys, env) by {
        assert "start_time" in data && data["start_time"].JStr? && env.fromIso(data["start_time"].s).None?;
      }
    }
  }

  /** `build_event_create`: every required key must be present, the time
      texts must parse, and the result must pass validation. */
  function BuildCreate(payload: Option<map<string, Json>>, env: Env): Result<EventCreateRequest, Failure>
  {
    var data := OrEmpty(payload);
    if exists f :: f in RequiredForCreate && f !in data then Failure(ValueError)
    else
      match ConvertKeys(data, TimeKeys, env)
      case None => Failure(ValueError)
      case Some(converted) =>
        match CreateRequestOf(converted)
        case None => Failure(ValueError)
        case Some(req) => Success(req)
  }

  /** Only a `ValueError` comes out of `build_event_create`, and a missing
      required key or a time text `fromisoformat` rejects is one. */
  lemma BuildCreateRejects(payload: Option<map<string, Json>>, env: Env)
    ensures var r := BuildCreate(payload, env);
            && (r.Failure? ==> r.error == ValueError)
            && ((exists f :: f in RequiredForCreate && f !in OrEmpty(payload)) ==> r.Failure?)
            && (BadTime(OrEmpty(payload), TimeKeys, env) ==> r.Failure?)
  {
    ConvertTimeKeys(OrEmpty(payload), env);
  }

  /** A successful `build_event_create` carries exactly the payload's
      fields, with the times read from it. */
  lemma BuildCreateFields(payload: Option<map<string, Json>>, env: Env)
    ensures var r := BuildCreate(payload, env);
            r.Success? ==> var data := OrEmpty(payload);
              && StrField(data, "summary") == Some(r.value.summary)
              && "start_time" in data && TimeOf(data["start_time"], env) == Some(r.value.startTime)
              && "end_time" in data && TimeOf(data["end_time"], env) == Some(r.value.endTime)
              && OptStrField(data, "description") == Some(r.value.description)
              && OptStrField(data, "timezone") == Some(r.value.timezone)
  {
    var data := OrEmpty(payload);
    ConvertTimeKeys(data, env);
    var r := BuildCreate(payload, env);
    if r.Success? {
      assert "summary" in RequiredForCreate && "start_time" in RequiredForCreate && "end_time" in RequiredForCreate;
      assert "start_time" in TimeKeys && "end_time" in TimeKeys && "summary" !in TimeKeys;
      assert "description" !in TimeKeys && "timezone" !in TimeKeys;
      var converted := ConvertKeys(data, TimeKeys, env).value;
      assert CreateRequestOf(converted) == Some(r.value);
    }
  }

  /** A payload whose fields all validate is accepted. */
  lemma BuildCreateAccepts(payload: Option<map<string, Json>>, env: Env)
    requires var data := OrEmpty(payload);
             && StrField(data, "summary").Some?
             && "start_time" in data && TimeOf(data["start_time"], env).Some?
             && "end_time" in data && TimeOf(data["end_time"], env).Some?
             && OptStrField(data, "description").Some? && OptStrField(data, "timezone").Some?
    ensures BuildCreate(payload, env).Success?
  {
    var data := OrEmpty(payload);
    ConvertTimeKeys(data, env);
    assert forall f :: f in RequiredForCreate ==> f in data;
    assert !BadTime(data, TimeKeys, env) by {
      assert forall k :: k in TimeKeys <==> k == "start_time" || k == "end_time";
    }
    var converted := ConvertKeys(data, TimeKeys, env).value;
    assert "start_time" in TimeKeys && "end_time" in TimeKeys;
    assert "summary" !in TimeKeys && "description" !in TimeKeys && "timezone" !in TimeKeys;
    assert CreateRequestOf(converted).Some?;
  }

  method BuildEventCreate(payload: Option<map<string, Json>>, env: Env) returns (r: Result<EventCreateRequest, Failure>)
    ensures r == BuildCreate(payload, env)
  {
    var data := if payload.Some? then payload.value else map[];
    for i := 0 to |RequiredForCreate|
      invariant forall j :: 0 <= j < i ==> RequiredForCreate[j] in data
    {
      if RequiredForCreate[i] !in data {
        return Failure(ValueError);
      }
    }
    for i := 0 to |TimeKeys|
      invariant ConvertKeys(data, TimeKeys[i..], env) == ConvertKeys(OrEmpty(payload), TimeKeys, env)
    {
      var key := TimeKeys[i];
      assert TimeKeys[i..][1..] == TimeKeys[i + 1..];
      if key in data && data[key].JStr? {
        var parsed := env.fromIso(data[key].s);
        if parsed.None? {
          return Failure(ValueError);
        }
        data := data[key := JTime(parsed.value)];
      }
    }
    var req := CreateRequestOf(data);
    if req.None? {
      return Failure(ValueError);
    }
    return Success(req.value);
  }

  /** `build_event_update`: the payload must hold `event_id`, which is split
      off; the time texts must parse; something besides `event_id` must be
      present; the rest must pass validation. */
  function BuildUpdate(payload: Option<map<string, Json>>, env: Env): Result<(Json, EventUpdateRequest), Failure>
  {
    var data := OrEmpty(payload);
    if "event_id" !in data then Failure(ValueError)
    else
      var rest := data - {"event_id"};
      var withStart := ConvertTime(rest, "start_time", env);
      if withStart.None? then Failure(ValueError)
      else
        var converted := ConvertTime(withStart.value, "end_time", env);
        if converted.None? || converted.value == map[] then Failure(ValueError)
        else
          match UpdateRequestOf(converted.value)
          case None => Failure(ValueError)
          case Some(req) => Success((data["event_id"], req))
  }

  /** Only a `ValueError` comes out of `build_event_update`; a payload
      without `event_id`, or with nothing but `event_id`, or with a time
      text `fromisoformat` rejects, is one. */
  lemma BuildUpdateRejects(payload: Option<map<string, Json>>, env: Env)
    ensures var r := BuildUpdate(payload, env);
            && (r.Failure? ==> r.error == ValueError)
            && ("event_id" !in OrEmpty(payload) ==> r.Failure?)
            && (OrEmpty(payload).Keys == {"event_id"} ==> r.Failure?)
            && (BadTime(OrEmpty(payload), TimeKeys, env) ==> r.Failure?)
  {
    var data := OrEmpty(payload);
    if "event_id" in data {
      var rest := data - {"event_id"};
      assert data.Keys == {"event_id"} + rest.Keys;
      var withStart := ConvertTime(rest, "start_time", env);
      if withStart.Some? && BadTime(data, TimeKeys, env) {
        assert forall k :: k in TimeKeys <==> k == "start_time" || k == "end_time";
        var k :| k in TimeKeys && k in data && data[k].JStr? && env.fromIso(data[k].s).None?;
        assert k in rest;
      }
    }
  }

  /** A successful `build_event_update` returns the payload's `event_id`
      and, as the update, the payload's other fields: a time is set exactly
      when the payload holds a non-null value for it, read from that value. */
  lemma BuildUpdateFields(payload: Option<map<string, Json>>, env: Env)
    ensures var r := BuildUpdate(payload, env);
            r.Success? ==> var data := OrEmpty(payload);
              && "event_id" in data && r.value.0 == data["event_id"]
              && OptStrField(data, "summary") == Some(r.value.1.summary)
              && OptStrField(data, "description") == Some(r.value.1.description)
              && (r.value.1.startTime.Some? <==> "start_time" in data && !data["start_time"].JNull?)
              && (r.value.1.startTime.Some? ==> TimeOf(data["start_time"], env) == r.value.1.startTime)
              && (r.value.1.endTime.Some? <==> "end_time" in data && !data["end_time"].JNull?)
              && (r.value.1.endTime.Some? ==> TimeOf(data["end_time"], env) == r.value.1.endTime)
  {
    var data := OrEmpty(payload);
    var r := BuildUpdate(payload, env);
    if r.Success? {
      var rest := data - {"event_id"};
      var withStart := ConvertTime(rest, "start_time", env).value;
      var converted := ConvertTime(withStart, "end_time", env).value;
      assert UpdateRequestOf(converted) == Some(r.value.1);
    }
  }

  /** A payload with an `event_id`, some other key, and fields that all
      validate is accepted. */
  lemma BuildUpdateAccepts(payload: Option<map<string, Json>>, env: Env)
    requires var data := OrEmpty(payload);
             && "event_id" in data && data.Keys != {"event_id"}
             && OptStrField(data, "summary").Some? && OptStrField(data, "description").Some?
             && ("start_time" in data && !data["start_time"].JNull? ==> TimeOf(data["start_time"], env).Some?)
             && ("end_time" in data && !data["end_time"].JNull? ==> TimeOf(data["end_time"], env).Some?)
    ensures BuildUpdate(payload, env).Success?
  {
    var data := OrEmpty(payload);
    var rest := data - {"event_id"};
    assert rest != map[] by {
      var k :| k in data && k != "event_id";
      assert k in rest;
    }
    var withStart := ConvertTime(rest, "start_time", env);
    assert withStart.Some?;
    var converted := ConvertTime(withStart.value, "end_time", env);
    assert converted.Some?;
    assert converted.value.Keys == rest.Keys;
    assert converted.value != map[] by {
      var k :| k in rest;
      assert k in converted.value;
    }
    assert OptStrField(converted.value, "summary") == OptStrField(data, "summary");
    assert OptStrField(converted.value, "description") == OptStrField(data, "description");
    assert OptTimeField(converted.value, "start_time").Some?;
    assert OptTimeField(converted.value, "end_time").Some?;
    assert UpdateRequestOf(converted.value).Some?;
  }

  method BuildEventUpdate(payload: Option<map<string, Json>>, env: Env) returns (r: Result<(Json, EventUpdateRequest), Failure>)
    ensures r == BuildUpdate(payload, env)
  {
    var data := if payload.Some? then payload.value else map[];
    if "event_id" !in data {
      return Failure(ValueError);
    }
    var eventId := data["event_id"];
    data := data - {"event_id"};
    if "start_time" in data && data["start_time"].JStr? {
      var parsed := env.fromIso(data["start_time"].s);
      if parsed.None? {
        return Failure(ValueError);
      }
      data := data["start_time" := JTime(parsed.value)];
    }
    if "end_time" in data && data["end_time"].JStr? {
      var parsed := env.fromIso(data["end_time"].s);
      if parsed.None? {
        return Failure(ValueError);
      }
      data := data["end_time" := JTime(parsed.value)];
    }
    if data == map[] {
      return Failure(ValueError);
    }
    var req := UpdateRequestOf(data);
    if req.None? {
      return Failure(ValueError);
    }
    return Success((eventId, req.value));
  }

  /** The guard looks at the keys, not at the validated request: an
      `event_id` with only keys the request model ignores passes, and the
      patch sent for it is empty. */
  lemma UpdateWithIgnoredKeysIsEmpty(eventId: Json, key: string, v: Json, env: Env)
    requires key !in {"event_id", "summary", "description", "start_time", "end_time"}
    ensures var r := BuildUpdate(Some(map["event_id" := eventId, key := v]), env);
            && r == Success((eventId, EventUpdateRequest(None, None, None, None)))
            && PatchBody(r.value.1, env.timezone) == map[]
  {
    var data := map["event_id" := eventId, key := v];
    var rest := map[key := v];
    assert data - {"event_id"} == rest;
    assert ConvertTime(rest, "start_time", env) == Some(rest);
    assert ConvertTime(rest, "end_time", env) == Some(rest);
    assert key in rest;
    assert UpdateRequestOf(rest) == Some(EventUpdateRequest(None, None, None, None));
    PatchBodyEmpty(EventUpdateRequest(None, None, None, None), env.timezone);
  }

  // ---------------------------------------------------------------------
  // The dispatcher.

  // The longer replies are written as two literals: the verifier reads the
  // characters of a short literal, which the lemmas below use to tell the
  // replies apart.
  const NothingToday: string := "📭 Nothing on the books today." + " Enjoy the free time!"
  const TodayHeader: string := "📅 Here's today:"
  const Canceled: string := "\U{1F5D1}\U{FE0F} Got it — event canceled."
  const CalendarTrouble: string := "😬 Google Calendar didn't like that." + " Try again in a sec?"
  const NeedMoreInfo: string := "🤔 I need a bit more info to do that." + " Can you rephrase?"
  const NotUnderstood: string := "Sorry, I didn't understand that" + " — mind rephrasing?"

  function AddedReply(summary: string, time: string): string
  {
    "✨ Added '" + summary + "' at " + time
  }

  function RescheduledReply(summary: string, time: string): string
  {
    "🔁 Rescheduled '" + summary + "' to " + time
  }

  /** `format_local_time` and `format_event_line`. */
  datatype Format = Format(time: DateTime -> string, line: EventResponse -> string)

  /** A call `handle_intent` makes on the calendar client. */
  datatype Call =
    | ListToday
    | Create(request: EventCreateRequest)
    | Update(eventId: Json, update: EventUpdateRequest)
    | Delete(eventId: Json)

  /** What `handle_intent` answers, with the calls it made. */
  datatype Handled = Handled(reply: string, calls: seq<Call>)

  /** `"\n".join(lines)`. */
  function Join(lines: seq<string>, sep: string): string
    decreases |lines|
  {
    if lines == [] then []
    else if |lines| == 1 then lines[0]
    else lines[0] + sep + Join(lines[1..], sep)
  }

  /** The reply to an exception: a `CalendarError` gets the calendar
      apology, a `ValueError` the request for more detail. */
  function ErrorReply(f: Failure): string
  {
    match f
    case CalendarError(_) => CalendarTrouble
    case ValueError => NeedMoreInfo
  }

  /** The reply for today's events. */
  function Listing(events: seq<EventResponse>, fmt: Format): string
  {
    if events == [] then NothingToday
    else Join([TodayHeader] + Lines(events, fmt), "\n")
  }

  /** The `list_events` branch. */
  function HandleList(api: GoogleApi, env: Env, fmt: Format): Handled
  {
    var reply := (match CalendarService.ListEvents(api, env)
      case Failure(f) => ErrorReply(f)
      case Success(events) => Listing(events, fmt));
    Handled(reply, [ListToday])
  }

  /** The `create_event` branch: no call when the payload is rejected. */
  function HandleCreate(payload: map<string, Json>, api: GoogleApi, env: Env, fmt: Format): Handled
  {
    match BuildCreate(Some(payload), env)
    case Failure(f) => Handled(ErrorReply(f), [])
    case Success(req) =>
      var reply := (match CalendarService.CreateEvent(api, env, req)
        case Failure(f) => ErrorReply(f)
        case Success(e) => AddedReply(e.summary, fmt.time(e.startTime)));
      Handled(reply, [Create(req)])
  }

  /** The `reschedule_event` branch: no call when the payload is rejected. */
  function HandleReschedule(payload: map<string, Json>, api: GoogleApi, env: Env, fmt: Format): Handled
  {
    match BuildUpdate(Some(payload), env)
    case Failure(f) => Handled(ErrorReply(f), [])
    case Success((eventId, req)) =>
      var reply := (match UpdateEvent(api, env, eventId, req)
        case Failure(f) => ErrorReply(f)
        case Success(e) => RescheduledReply(e.summary, fmt.time(e.startTime)));
      Handled(reply, [Update(eventId, req)])
  }

  /** `payload.get("event_id")`. */
  function EventIdOf(payload: map<string, Json>): Json
  {
    if "event_id" in payload then payload["event_id"] else JNull
  }

  /** The `cancel_event` branch: a missing or falsy id raises `ValueError`
      before any call. */
  function HandleCancel(payload: map<string, Json>, api: GoogleApi): Handled
  {
    var eventId := EventIdOf(payload);
    if !Truthy(eventId) then Handled(ErrorReply(ValueError), [])
    else
      var reply := (match DeleteEvent(api, eventId)
        case Failure(f) => ErrorReply(f)
        case Success(_) => Canceled);
      Handled(reply, [Delete(eventId)])
  }

  /** `handle_intent`: the reply, and the calendar calls made on the way. */
  function Handle(intent: IntentResult, api: GoogleApi, env: Env, fmt: Format): Handled
  {
    match intent.intent
    case ListEvents => HandleList(api, env, fmt)
    case CreateEvent => HandleCreate(intent.payload, api, env, fmt)
    case RescheduleEvent => HandleReschedule(intent.payload, api, env, fmt)
    case CancelEvent => HandleCancel(intent.payload, api)
    case Unknown => Handled(NotUnderstood, [])
  }

  // ---------------------------------------------------------------------
  // Properties of the dispatcher.

  /** The "didn't understand" reply comes for an unknown intent and for no
      other: every handled intent answers with its own success text or one
      of the error replies. */
  lemma NotUnderstoodOnlyForUnknown(intent: IntentResult, api: GoogleApi, env: Env, fmt: Format)
    ensures (Handle(intent, api, env, fmt).reply == NotUnderstood) <==> intent.intent == Unknown
    ensures intent.intent == Unknown ==> Handle(intent, api, env, fmt).calls == []
  {
    match intent.intent {
      case ListEvents => ListNeverFallback(api, env, fmt);
      case CreateEvent => CreateNeverFallback(intent.payload, api, env, fmt);
      case RescheduleEvent => RescheduleNeverFallback(intent.payload, api, env, fmt);
      case CancelEvent => ErrorNeverFallback(ValueError);
        if Truthy(EventIdOf(intent.payload)) {
          ErrorNeverFallback(CalendarError([]));
          assert Canceled[0] != NotUnderstood[0];
        }
      case Unknown =>
    }
  }

  lemma ErrorNeverFallback(f: Failure)
    ensures ErrorReply(f) != NotUnderstood
    ensures ErrorReply(CalendarError([])) != NotUnderstood
  {
    assert CalendarTrouble[0] != NotUnderstood[0];
    assert NeedMoreInfo[0] != NotUnderstood[0];
  }

  lemma ListNeverFallback(api: GoogleApi, env: Env, fmt: Format)
    ensures HandleList(api, env, fmt).reply != NotUnderstood
  {
    var listed := CalendarService.ListEvents(api, env);
    if listed.Failure? {
      ErrorNeverFallback(listed.error);
    } else if listed.value == [] {
      assert NothingToday[0] != NotUnderstood[0];
    } else {
      var reply := HandleList(api, env, fmt).reply;
      ListingReply(listed.value, fmt);
      assert reply[0] == TodayHeader[0];
    }
  }

  lemma CreateNeverFallback(payload: map<string, Json>, api: GoogleApi, env: Env, fmt: Format)
    ensures HandleCreate(payload, api, env, fmt).reply != NotUnderstood
  {
    var built := BuildCreate(Some(payload), env);
    if built.Failure? {
      ErrorNeverFallback(built.error);
    } else {
      var created := CalendarService.CreateEvent(api, env, built.value);
      if created.Failure? {
        ErrorNeverFallback(created.error);
      } else {
        var reply := HandleCreate(payload, api, env, fmt).reply;
        assert reply[0] == AddedReply(created.value.summary, fmt.time(created.value.startTime))[0];
      }
    }
  }

  lemma RescheduleNeverFallback(payload: map<string, Json>, api: GoogleApi, env: Env, fmt: Format)
    ensures HandleReschedule(payload, api, env, fmt).reply != NotUnderstood
  {
    var built := BuildUpdate(Some(payload), env);
    if built.Failure? {
      ErrorNeverFallback(built.error);
    } else {
      var updated := UpdateEvent(api, env, built.value.0, built.value.1);
      if updated.Failure? {
        ErrorNeverFallback(updated.error);
      } else {
        var reply := HandleReschedule(payload, api, env, fmt).reply;
        assert reply[0] == RescheduledReply(updated.value.summary, fmt.time(updated.value.startTime))[0];
      }
    }
  }

  /** A cancel without a truthy `event_id` asks for more detail and never
      reaches `delete_event`; with one, exactly that id is deleted. */
  lemma CancelNeedsEventId(intent: IntentResult, api: GoogleApi, env: Env, fmt: Format)
    requires intent.intent == CancelEvent
    ensures !Truthy(EventIdOf(intent.payload)) ==> Handle(intent, api, env, fmt) == Handled(NeedMoreInfo, [])
    ensures Truthy(EventIdOf(intent.payload)) ==>
              && Handle(intent, api, env, fmt).calls == [Delete(intent.payload["event_id"])]
              && (Handle(intent, api, env, fmt).reply == Canceled <==> DeleteEvent(api, intent.payload["event_id"]).Success?)
  {
  }

  /** Whichever branch a `CalendarError` comes out of, the reply is the
      calendar apology; a rejected payload never reaches the calendar. */
  lemma CalendarErrorReply(intent: IntentResult, api: GoogleApi, env: Env, fmt: Format, message: string)
    ensures intent.intent == ListEvents && CalendarService.ListEvents(api, env) == Failure(CalendarError(message))
            ==> Handle(intent, api, env, fmt).reply == CalendarTrouble
    ensures intent.intent == CreateEvent && BuildCreate(Some(intent.payload), env).Success?
            && CalendarService.CreateEvent(api, env, BuildCreate(Some(intent.payload), env).value) == Failure(CalendarError(message))
            ==> Handle(intent, api, env, fmt).reply == CalendarTrouble
    ensures intent.intent == RescheduleEvent && BuildUpdate(Some(intent.payload), env).Success?
            && UpdateEvent(api, env, BuildUpdate(Some(intent.payload), env).value.0,
                           BuildUpdate(Some(intent.payload), env).value.1) == Failure(CalendarError(message))
            ==> Handle(intent, api, env, fmt).reply == CalendarTrouble
    ensures intent.intent == CancelEvent && Truthy(EventIdOf(intent.payload))
            && DeleteEvent(api, EventIdOf(intent.payload)) == Failure(CalendarError(message))
            ==> Handle(intent, api, env, fmt).reply == CalendarTrouble
    ensures intent.intent in {CreateEvent, RescheduleEvent} && Handle(intent, api, env, fmt).calls == []
            ==> Handle(intent, api, env, fmt).reply == NeedMoreInfo
  {
    if intent.intent == CreateEvent { BuildCreateRejects(Some(intent.payload), env); }
    if intent.intent == RescheduleEvent { BuildUpdateRejects(Some(intent.payload), env); }
  }

  /** An empty day gets the "nothing on the books" reply; otherwise the
      header is followed by one line per event, in the calendar's order. */
  lemma ListingReply(events: seq<EventResponse>, fmt: Format)
    ensures events == [] ==> Listing(events, fmt) == NothingToday
    ensures events != [] ==> Listing(events, fmt) == TodayHeader + "\n" + Join(Lines(events, fmt), "\n")
  {
  }

  // ---------------------------------------------------------------------
  // The dispatcher as the code runs it.

  /** The formatted lines of `events`, in order. */
  function Lines(events: seq<EventResponse>, fmt: Format): (lines: seq<string>)
    ensures |lines| == |events|
    ensures forall i :: 0 <= i < |events| ==> lines[i] == fmt.line(events[i])
  {
    if events == [] then []
    else Lines(events[..|events| - 1], fmt) + [fmt.line(events[|events| - 1])]
  }

  /** The loop that collects the header and one line per event. */
  method CollectLines(events: seq<EventResponse>, fmt: Format) returns (lines: seq<string>)
    ensures lines == [TodayHeader] + Lines(events, fmt)
  {
    lines := [TodayHeader];
    for i := 0 to |events|
      invariant lines == [TodayHeader] + Lines(events[..i], fmt)
    {
      assert events[..i + 1][..i] == events[..i];
      lines := lines + [fmt.line(events[i])];
    }
    assert events[..|events|] == events;
  }

  method ListReply(api: GoogleApi, env: Env, fmt: Format) returns (reply: string)
    ensures Handled(reply, [ListToday]) == HandleList(api, env, fmt)
  {
    var listed := CalendarService.ListEvents(api, env);
    if listed.Failure? {
      return ErrorReply(listed.error);
    }
    var events := listed.value;
    if events == [] {
      return NothingToday;
    }
    var lines := CollectLines(events, fmt);
    return Join(lines, "\n");
  }

  method HandleIntent(intent: IntentResult, api: GoogleApi, env: Env, fmt: Format) returns (reply: string, calls: seq<Call>)
    ensures Handled(reply, calls) == Handle(intent, api, env, fmt)
  {
    calls := [];
    if intent.intent == ListEvents {
      calls := [ListToday];
      reply := ListReply(api, env, fmt);
      return;
    }
    if intent.intent == CreateEvent {
      var built := BuildEventCreate(Some(intent.payload), env);
      if built.Failure? {
        return ErrorReply(built.error), calls;
      }
      calls := [Create(built.value)];
      var created := CalendarService.CreateEvent(api, env, built.value);
      if created.Failure? {
        return ErrorReply(created.error), calls;
      }
      return AddedReply(created.value.summary, fmt.time(created.value.startTime)), calls;
    }
    if intent.intent == RescheduleEvent {
      var built := BuildEventUpdate(Some(intent.payload), env);
      if built.Failure? {
        return ErrorReply(built.error), calls;
      }
      var (eventId, req) := built.value;
      calls := [Update(eventId, req)];
      var updated := UpdateEvent(api, env, eventId, req);
      if updated.Failure? {
        return ErrorReply(updated.error), calls;
      }
      return RescheduledReply(updated.value.summary, fmt.time(updated.value.startTime)), calls;
    }
    if intent.intent == CancelEvent {
      var eventId := if "event_id" in intent.payload then intent.payload["event_id"] else JNull;
      if !Truthy(eventId) {
        return ErrorReply(ValueError), calls;
      }
      calls := [Delete(eventId)];
      var deleted := DeleteEvent(api, eventId);
      if deleted.Failure? {
        return ErrorReply(deleted.error), calls;
      }
      return Canceled, calls;
    }
    return NotUnderstood, calls;
  }
}
