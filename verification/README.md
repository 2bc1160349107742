# nudgeme-ai core in Dafny

This project models the core of nudgeme-ai, a small service that manages a Google Calendar over SMS. The model covers six parts:

- **Reminder state store** (`reminder_state.dfy`). This is the de-duplication store of `app/reminder_state.py`. It maps an event id to the event's version token and the sorted list of reminder kinds already sent under that version. It is a `class` whose methods update the map in place and write a snapshot of it to the state file.
- **Reminder engine** (`reminder_engine.dfy`). This is `app/reminder_engine.py`. Each tick sends the "2h" and "10m" reminders that are due and not yet recorded for the event's current version. A reminder is recorded only after its SMS went out. Entries of events that ended more than an hour ago are then cleared. `Engine.Tick` is proved against the pure `TickSpec`. The properties are lemmas about `TickSpec`:
  - the tick attempts exactly the due, unrecorded reminders
  - it records exactly the deliveries that succeeded
  - a second tick sends nothing
  - a new version makes due reminders go out again
- **Intent parser** (`intent_parser.dfy`). This is `app/llm_parser.py`: the strip and empty-text branch, the decoding of the language model's reply with its intent whitelist, and the keyword fallback.
- **Calendar client** (`calendar_service.dfy`). This is `app/calendar_service.py`: normalizing Google's records with their defaults, the insert and patch bodies, and the mapping of every `HttpError` and a missing credential to `CalendarError`.
- **SMS dispatcher** (`dispatch.dfy`). This is `app/main.py`. `build_event_create` and `build_event_update` turn a payload into a request. `handle_intent` runs the calendar call an intent asks for and maps the outcome or the error to a reply.
- **Shared definitions** (`common.dfy`, `models.dfy`). These hold Option/Result, a JSON value type, Python's string order with the sort `mark_sent` applies, and the records of `app/models.py`.

Times are a `DateTime`: an instant in integer seconds together with its `isoformat` text. The reminder engine compares instants. The store's version token is the text. These inputs become parameters:

- `datetime.fromisoformat` and the current instant are the `fromIso` and `now` members of the calendar `Env`
- the Google API is a `GoogleApi` value giving the outcome of each request
- the SMS channel is a `Notifier` whose sends fail on a fixed set of attempt numbers
- the language model's reply is an `Option<Json>`: `None` when there is no client or the call raised

Two behaviours of the code are kept as they are:

- The store overwrites its file in place. It does not write a temporary file and rename it (`app/reminder_state.py:33-35`).
- A tick isolates failures only around the send and the mark of a single reminder (`app/reminder_engine.py:69-73`). Failures elsewhere are not isolated per event.

In the code, `build_event_update` checks for emptiness on the payload's keys, not on the validated request. So a payload holding `event_id` and only keys that the request model ignores gets through and produces an empty patch (`Dispatch.UpdateWithIgnoredKeysIsEmpty`). The model records this as the code's behaviour. It is not listed as a finding: the REST endpoint performs the stricter check itself, and the SMS path's intent is not evident.

## Model

| member | source | states |
|---|---|---|
| Common.SortSpec | app/reminder_state.py:52 | `list.sort()` on kinds yields a list ordered by Python's code-point string order that is a permutation of its input |
| Common.SortAppendMembers | app/reminder_state.py:50-52 | after appending a kind and sorting, the list holds exactly the old kinds plus the new one |
| ReminderState.MarkSentIn | app/reminder_state.py:45-52 | after `mark_sent` the event's entry carries the given version and contains the kind; no other event's entry changes; a version different from the stored one (or no entry) leaves exactly `[kind]` |
| ReminderState.MarkSentThenHasSent | app/reminder_state.py:37-52 | after `mark_sent(e, k, v)`, `has_sent` is true for (e, k', v') iff v' = v and (k' = k or k' was recorded under v); other events answer as before; kinds sent under an old version are forgotten |
| ReminderState.MarkSentIdempotent | app/reminder_state.py:45-52 | marking the same (event, kind, version) twice gives the same map as marking it once |
| ReminderState.MarkSentKeepsWellFormed | app/reminder_state.py:50-52 | if every entry's kind list is sorted and repeat-free, it stays so after `mark_sent` |
| ReminderState.MarkSentKeepsKnownKinds | app/reminder_state.py:45-52 | marking a kind from a given set keeps every recorded kind within that set |
| ReminderState.ReminderStateStore.constructor | app/reminder_state.py:20-31 | the map is the file's content, or empty when no file exists |
| ReminderState.ReminderStateStore.Persist | app/reminder_state.py:33-35 | the file is overwritten with the current map; the map is unchanged |
| ReminderState.ReminderStateStore.HasSent | app/reminder_state.py:37-43 | false for an unknown event or a stale version; otherwise true iff the kind is recorded |
| ReminderState.ReminderStateStore.MarkSent | app/reminder_state.py:45-53 | the new map is `MarkSentIn` of the old one, exactly one snapshot is written, and the file matches the map |
| ReminderState.ReminderStateStore.ClearEvent | app/reminder_state.py:55-58 | the event's entry is removed; a write happens only if the entry existed, otherwise file and writes are untouched |
| ReminderEngine.RenderPlacesTitle | app/reminder_engine.py:62-68 | the message is the template's text with the title substituted verbatim at its one placeholder |
| ReminderEngine.DueOrder | app/reminder_engine.py:61-67 | a reminder is due once `now` reaches start minus its lead and stays due afterwards; "10m" is never due before "2h" |
| ReminderEngine.VersionKeyFollows | app/reminder_engine.py:65 | the version is the update stamp's text when there is one (whatever the start), else the start's text |
| ReminderEngine.ExpiredOrder | app/reminder_engine.py:76-78 | an event is expired once it ended more than an hour before `now` and stays so; one that ended within the hour is not |
| ReminderEngine.TickKeepsKnownKinds | app/reminder_engine.py:57-79 | a store that records only the schedule's kinds ("2h", "10m") still does after a tick |
| ReminderEngine.Cleanup | app/reminder_engine.py:75-79 | the state after the cleanup loop is the old state minus the ids of fetched events that ended more than one hour before `now` |
| ReminderEngine.EventAttempts | app/reminder_engine.py:57-73 | for one event, the sends attempted are exactly its due reminders not yet recorded under its version, in schedule order ("2h" then "10m") |
| ReminderEngine.TickAttempts | app/reminder_engine.py:57-73 | with distinct event ids, a tick attempts exactly the due, unrecorded reminders of every fetched event, in fetch order |
| ReminderEngine.TickMarksOnlyDelivered | app/reminder_engine.py:66-73 | the messages delivered are exactly the attempts that did not fail, and the state after the send loop (before cleanup) is the old state with exactly those marked, in the order they went out |
| ReminderEngine.SecondTickSendsNothing | app/reminder_engine.py:49-79 | after a tick whose sends all succeeded, a second tick at the same instant over the same events (distinct ids, none expired) attempts nothing |
| ReminderEngine.VersionChangeResends | app/reminder_engine.py:65-67 | when an event's version differs from its stored entry, every due reminder of it is attempted again |
| ReminderEngine.CleanupIdleWithinWindow | app/reminder_engine.py:76-79 | when every fetched event ends at or after `now`, the cleanup clears nothing |
| ReminderEngine.Notifier.Send | app/reminder_engine.py:69-73 | a send succeeds iff its attempt number is not a failing one; the attempt counter grows by one; the outbox gains the body only on success |
| ReminderEngine.Engine.constructor | app/reminder_engine.py:21-33 | a new engine is not running and has no job scheduled |
| ReminderEngine.Engine.Start | app/reminder_engine.py:35-41 | the engine ends up running; a job is added only when it was not running already |
| ReminderEngine.Engine.Stop | app/reminder_engine.py:43-47 | the engine ends up stopped; jobs and log are unchanged |
| ReminderEngine.Engine.TryRemind | app/reminder_engine.py:66-73 | one reminder: the store, attempts, outbox and log afterwards are those of the `Remind` step of the specification |
| ReminderEngine.Engine.Deliver | app/reminder_engine.py:68-73 | a due, unrecorded reminder is sent and, only if the send succeeded, marked and logged |
| ReminderEngine.Engine.Settle | app/reminder_engine.py:70-73 | after the send: a delivered reminder is marked and logged, a failed one only counted as tried; the result is the `Remind` step |
| ReminderEngine.Engine.Record | app/reminder_engine.py:71 | the store afterwards is `MarkSentIn` of the one before, and the log grows by exactly the delivered notice |
| ReminderEngine.Engine.RemindEvent | app/reminder_engine.py:57-73 | one event's reminders: the state afterwards is `RemindAll` over the schedule |
| ReminderEngine.Engine.Sweep | app/reminder_engine.py:75-79 | the store's map becomes `Cleanup` of the old map |
| ReminderEngine.Engine.Tick | app/reminder_engine.py:49-79 | a failed fetch changes nothing; otherwise the store, log, attempts and outbox are those of `TickSpec`; a store holding only schedule kinds keeps holding only them |
| IntentParser.Strip | app/llm_parser.py:40 | the result has no leading or trailing whitespace, is a contiguous slice of the input with only whitespace cut off, and is empty iff the input is all whitespace |
| IntentParser.StripIdempotent | app/llm_parser.py:40 | stripping twice equals stripping once |
| IntentParser.Lower | app/llm_parser.py:72 | same length; every character lower-cased, none left in A-Z |
| IntentParser.LowerIdempotent | app/llm_parser.py:72 | lower-casing twice equals lower-casing once |
| IntentParser.FallbackIntent | app/llm_parser.py:71-92 | the payload is `{"text": text}`; the confidence is 0.1 for `unknown` and 0.5 otherwise; the intent is `unknown` iff no keyword occurs in the lower-cased text |
| IntentParser.ListOnlyFromList | app/llm_parser.py:77-84 | `list_events` comes out iff "list" occurs and no create, reschedule or cancel keyword does (the "what … schedule" branch can never fire) |
| IntentParser.FallbackIgnoresCase | app/llm_parser.py:71-92 | the intent and confidence of a text equal those of its lower-cased form |
| IntentParser.RescheduleReadAsCreate | app/llm_parser.py:77-80 | as written, any text containing "reschedule" is classed `create_event` |
| IntentParser.RemoveNeverCancels | app/llm_parser.py:79-82 | as written, any text containing "remove" is never classed `cancel_event` |
| IntentParser.RescheduleLunchIsCreate | app/llm_parser.py:77-84 | as written, "Reschedule lunch" is classed `create_event` |
| IntentParser.FallbackIntentByWord | app/llm_parser.py:71-92 | the corrected fallback: same payload and confidences, and `unknown` iff no keyword occurs as a whole word |
| IntentParser.RescheduleLunchByWord | app/llm_parser.py:77-84 | with whole-word matching, "Reschedule lunch" is classed `reschedule_event` |
| IntentParser.ByWordKeywordsReachable | app/llm_parser.py:77-84 | with whole-word matching, "reschedule" yields `reschedule_event` and "remove" yields `cancel_event` when no earlier group matches |
| IntentParser.ByWordAgreesOnWholeWords | app/llm_parser.py:77-84 | on texts where every keyword that occurs occurs as a whole word, the corrected and the as-written classification agree |
| IntentParser.WhitelistIntent | app/llm_parser.py:60 | any intent other than `unknown` comes from a reply value that is exactly that literal's text |
| IntentParser.WhitelistRoundTrip | app/llm_parser.py:60 | each literal's text passes the whitelist as itself |
| IntentParser.ToFloat | app/llm_parser.py:57 | `float()` succeeds exactly on numbers and booleans, and keeps a number's value (JSON numbers read as exact reals) |
| IntentParser.FromReply | app/llm_parser.py:54-65 | a reply that is not an object fails; an object fails exactly when its confidence (default 0.5) is not convertible by `float()` or its payload (default `{}`) is not an object; on success the intent is the whitelisted `intent` (default "unknown"), the payload and confidence are the reply's, and the raw reply and text are kept |
| IntentParser.FromReplyDefaults | app/llm_parser.py:55-57 | a reply object with none of the three keys gives `unknown`, an empty payload and confidence 0.5 |
| IntentParser.ParseIntent | app/llm_parser.py:39-69 | the text is stripped; a blank text gives `unknown` with an empty payload and confidence 0.0; a usable reply gives exactly what `FromReply` decodes; otherwise the result is `_fallback_intent` (`FallbackIntent`) of the stripped text |
| IntentParser.ParseIntentByWord | app/llm_parser.py:39-69 | the same pipeline with the whole-word fallback (`FallbackIntentByWord`) in place of the substring one |
| IntentParser.ParseIntentByWordAgrees | app/llm_parser.py:39-92 | on a message whose keywords occur only as whole words, the two pipelines give the same result for every reply |
| IntentParser.RescheduleLunchPipelines | app/llm_parser.py:39-84 | with no reply, "Reschedule lunch" is `create_event` through `parse_intent` as written and `reschedule_event` through the whole-word pipeline |
| CalendarService.CalendarErrorOf | app/calendar_service.py:93-95 | an `HttpError` becomes a `CalendarError` with its message; a missing credential becomes the `MissingCredentialsError` (a `CalendarError`) with its message |
| CalendarService.ReplaceZ | app/calendar_service.py:76 | no 'Z' is left in the result; a text without 'Z' is unchanged |
| CalendarService.ReplaceZAppend | app/calendar_service.py:76 | the replacement works piece by piece: the result for `a + b` is the result for `a` followed by that for `b` |
| CalendarService.ReplaceZOfZ | app/calendar_service.py:76 | a 'Z' is replaced by "+00:00" |
| CalendarService.ParseRfc3339 | app/calendar_service.py:72-76 | a missing or empty value gives the current instant; a text without 'Z' is read by `fromisoformat` |
| CalendarService.ParseRfc3339Utc | app/calendar_service.py:72-76 | a UTC stamp ending in 'Z' is read by `fromisoformat` as the same text with "+00:00" in place of the 'Z' |
| CalendarService.NormalizeEvent | app/calendar_service.py:52-70 | succeeds exactly when the record has an id, both times parse, and the `updated`-or-`created` stamp parses when one is given; then id, description and etag are copied, start and end are the parsed times, summary defaults to "(no title)", status to "confirmed" and zone to the settings' zone, and `updated_at` is parsed from `updated`, else from `created`, and is absent iff neither is given |
| CalendarService.NormalizeRecordOf | app/calendar_service.py:52-70 | normalizing the Google record of a response gives that response back |
| CalendarService.NormalizeAll | app/calendar_service.py:96-97 | the list succeeds iff every item normalizes; element i is the normalization of item i |
| CalendarService.ListEvents | app/calendar_service.py:78-97 | an API failure becomes `CalendarError`; the call succeeds exactly when the list request succeeds and every item normalizes, and then returns the normalized items in order; any other failure is a `ValueError` |
| CalendarService.CreateBody | app/calendar_service.py:112-120 | the insert body has exactly summary, description, start and end; both times carry the request's zone or the settings' zone |
| CalendarService.CreateEvent | app/calendar_service.py:112-126 | an insert failure becomes `CalendarError`; the call succeeds exactly when the insert succeeds and the returned record normalizes, and then returns that normalized record; any other failure is a `ValueError` |
| CalendarService.PatchBody | app/calendar_service.py:130-140 | each of summary, description, start and end is in the patch body iff the request sets it, with that value; times carry the settings' zone |
| CalendarService.PatchBodyEmpty | app/calendar_service.py:130-140 | the patch body is empty iff the request sets no field |
| CalendarService.BuildPatchBody | app/calendar_service.py:130-140 | the step-by-step construction yields `PatchBody` |
| CalendarService.UpdateEvent | app/calendar_service.py:128-150 | a patch failure becomes `CalendarError`; the call succeeds exactly when the patch succeeds and the returned record normalizes, and then returns that normalized record; any other failure is a `ValueError` |
| CalendarService.DeleteEvent | app/calendar_service.py:152-158 | succeeds iff the delete succeeds; its failure becomes `CalendarError` |
| Dispatch.ConvertTime | app/main.py:162-164 | converting one time key keeps every other key; a text becomes the datetime `fromisoformat` gives and fails iff it does not parse; a non-text value is left alone |
| Dispatch.ConvertTimeKeys | app/main.py:162-164 | converting both time keys fails iff one holds a text `fromisoformat` rejects; otherwise only time texts change |
| Dispatch.BuildCreateRejects | app/main.py:156-165 | only `ValueError` is raised, and it is raised for a missing required field or an unparsable time text |
| Dispatch.BuildCreateFields | app/main.py:156-165 | an accepted request's summary, times, description and zone are the payload's |
| Dispatch.BuildCreateAccepts | app/main.py:156-165 | a payload whose fields all validate is accepted |
| Dispatch.BuildEventCreate | app/main.py:156-165 | the loop-based construction yields `BuildCreate` |
| Dispatch.BuildUpdateRejects | app/main.py:168-180 | only `ValueError` is raised, and it is raised for a missing `event_id`, a payload holding only `event_id`, or an unparsable time text |
| Dispatch.BuildUpdateFields | app/main.py:168-180 | an accepted update returns the payload's `event_id`; summary and description come from the payload; a time is set iff the payload has a non-null value for it |
| Dispatch.BuildUpdateAccepts | app/main.py:168-180 | a payload with an `event_id`, at least one other key, text fields that validate and times that parse is accepted |
| Dispatch.BuildEventUpdate | app/main.py:168-180 | the step-by-step construction yields `BuildUpdate` |
| Dispatch.UpdateWithIgnoredKeysIsEmpty | app/main.py:174-180 | `event_id` plus one key the model ignores is accepted as an empty update whose patch body is empty |
| Dispatch.Lines | app/main.py:126-128 | one formatted line per event, in order |
| Dispatch.ListingReply | app/main.py:122-129 | no events gives the "Nothing on the books" text; otherwise the header and one line per event, joined by newlines |
| Dispatch.NotUnderstoodOnlyForUnknown | app/main.py:120-154 | the "didn't understand" reply comes out iff the intent is `unknown`, and then no calendar call is made |
| Dispatch.CancelNeedsEventId | app/main.py:141-146 | a missing or falsy `event_id` yields the "more info" reply with no call; otherwise exactly one delete of that id is made, and the reply is "canceled" iff the delete succeeds |
| Dispatch.CalendarErrorReply | app/main.py:120-152 | a `CalendarError` in any branch yields the calendar-trouble reply; a create or reschedule that makes no calendar call (its payload was rejected) yields the "more info" reply |
| Dispatch.CollectLines | app/main.py:126-128 | the loop collects the header followed by `Lines` |
| Dispatch.ListReply | app/main.py:122-129 | the list branch's reply equals the `HandleList` specification |
| Dispatch.HandleIntent | app/main.py:120-154 | reply and calendar calls equal the `Handle` specification |

## Left out

- The APScheduler job, its thread and `max_instances=1` are left out. `Engine.Start` and `Engine.Stop` model only the running flag and a job count.
- Time zones are left out: attaching a zone to a naive start, `astimezone`, and the UTC window of `list_events_today`/`list_upcoming`. An instant is an integer and its text is carried alongside.
- The fetch of the upcoming events is left out. `Engine.Tick` takes its outcome as a parameter. The request arguments are not modelled: the window, `singleEvents`, `orderBy` and `maxResults`.
- JSON file I/O is left out: serialisation, the parent directory, read or write errors, and a state file that does not decode. The file is a snapshot of the map.
- A send failure is modelled; a failure of `mark_sent` after a successful send is not, because the model's store cannot fail.
- Client errors other than `HttpError` are not modelled: a transport failure or timeout from `.execute()`, or a failed token refresh. The code lets them propagate unconverted out of the calendar methods and out of `handle_intent`, which then produces no reply. In the model every API failure is an `HttpError` or a missing credential, so `Dispatch.Handle` always replies.
- OAuth, token refresh and the caching in `_get_service` are left out. A missing credential is the `NoCredentials` API error, which becomes `CalendarError`.
- The Twilio client is left out. It is the `Notifier` class.
- The OpenAI request and the extraction of the reply text are left out. The decoded reply is a parameter, and an undecodable reply is `None`. The system prompt is left out.
- `format_local_time` and `format_event_line` (strftime) are the members of a `Format` parameter.
- IntentParser.Lower: lower-cases only ASCII A-Z, and Python's full Unicode case mapping is not modelled.
- IntentParser.Strip: treats only ASCII whitespace as whitespace, while Python's `str.strip` also strips other Unicode whitespace.
- IntentParser.ToFloat: a JSON number is an exact real. Python's `float()` rounds it to a double, so the carried confidence loses that rounding. An integer beyond the double range, on which `float()` raises OverflowError and the code falls back to the heuristics, is decoded as a number instead.
- IntentParser.ToFloat: a numeric string, which Python's `float()` accepts, is treated as raising, so the model falls back to the heuristics where the code would not.
- Dispatch.CreateRequestOf: pydantic's lax coercion of a number to a datetime (a Unix timestamp) is not modelled. A value of the wrong type is rejected.
- Dispatch.UpdateRequestOf: the same pydantic coercions are not modelled, and a value of the wrong type is rejected.
- CalendarService.NormalizeEvent: Google record fields are strings or absent. A non-string value, which pydantic would reject or coerce, is not modelled.
- `fromisoformat` after the 'Z' replacement is a parameter. The model does not check that it parses RFC 3339.
- The web routes of `app/main.py` are not part of this model (`/events`, the webhook and its TwiML wrapping), nor are `config.py`, `oauth.py`, `token_store.py` and `sms_service.py`.

## Findings

| source | as written | input that shows it | evidently intended | confidence | as-written member | corrected member |
|---|---|---|---|---|---|---|
| app/llm_parser.py:77-84 | keywords are matched as substrings, so "schedule" inside "reschedule" classes the text `create_event`, and "move" inside "remove" classes it `reschedule_event` | "Reschedule lunch" (also any text with "remove") | keywords match whole words, so "reschedule" gives `reschedule_event` and "remove" gives `cancel_event` | not executed | IntentParser.RescheduleLunchIsCreate | IntentParser.RescheduleLunchByWord |
