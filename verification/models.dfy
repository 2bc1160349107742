/** The request, response and intent records of app/models.py. Fields that
    are `Optional` there are `Option` here; `None` stands for Python's `None`. */
module Models {
  import opened Common

  /** The five intent literals a parsed message may carry. */
  datatype Intent = CreateEvent | RescheduleEvent | CancelEvent | ListEvents | Unknown

  /** The literal text of each intent, as the language model writes it. */
  function IntentName(i: Intent): string
  {
    match i
    case CreateEvent => "create_event"
    case RescheduleEvent => "reschedule_event"
    case CancelEvent => "cancel_event"
    case ListEvents => "list_events"
    case Unknown => "unknown"
  }

  datatype EventCreateRequest = EventCreateRequest(
    summary: string,
    startTime: DateTime,
    endTime: DateTime,
    description: Option<string>,
    timezone: Option<string>)

  datatype EventUpdateRequest = EventUpdateRequest(
    summary: Option<string>,
    startTime: Option<DateTime>,
    endTime: Option<DateTime>,
    description: Option<string>)

  /** A calendar event as the rest of the system sees it; the reminder
      engine reads `id`, `summary`, `startTime`, `endTime` and `updatedAt`. */
  datatype EventResponse = EventResponse(
    id: string,
    summary: string,
    description: Option<string>,
    startTime: DateTime,
    endTime: DateTime,
    timezone: string,
    status: string,
    updatedAt: Option<DateTime>,
    etag: Option<string>)

  /** A parsed message; `rawResponse` is the decoded reply of the language
      model when the result came from it. */
  datatype IntentResult = IntentResult(
    intent: Intent,
    payload: map<string, Json>,
    originalText: string,
    confidence: real,
    rawResponse: Option<map<string, Json>>)
}
