/** The conversation events the condenser and the scorer look at. An event
    is immutable; its class, the attributes that text extraction probes and
    its timestamp are recorded as plain fields. */
module Events {
  import opened Results

  /** The class family of an event: an `Action`, an `Observation`, an
      `AgentCondensationObservation` (a summary, which is also an
      observation), or none of these. */
  datatype Kind = ActionKind | ObservationKind | SummaryKind | OtherKind

  /** The `text` attribute of a non-string `content` attribute: missing, a
      string, or some other object, recorded only by its truthiness. */
  datatype TextAttr = NoText | TextString(text: string) | TextObject(truthy: bool)

  /** The `content` attribute: missing, a string, or an object with or without `text`. */
  datatype ContentAttr = NoContent | ContentString(s: string) | ContentObject(text: TextAttr)

  /** The event's `timestamp` attribute (or `created_at` when there is no
      `timestamp`), already compared with the clock: missing or `None`, a
      string that does not parse as an ISO date, a value that is not a
      date, or a date that lies `age` seconds in the past (negative when it
      lies in the future). */
  datatype Stamp = NoStamp | Unparsable | NotDateTime | AgeSeconds(age: real)

  /** One event. `typeName` is `type(event).__name__`; `message`, `thought`
      and `command` are the `str()` of those attributes when the event has
      them; `rendering` is `str(event)`. */
  datatype Event = Event(
    id: int,
    typeName: string,
    kind: Kind,
    content: ContentAttr,
    message: Option<string>,
    thought: Option<string>,
    command: Option<string>,
    rendering: string,
    stamp: Stamp)

  /** A view: the ordered events currently visible to the model. */
  type View = seq<Event>

  predicate IsSummary(e: Event) {
    e.kind == SummaryKind
  }

  predicate IsObservation(e: Event) {
    e.kind == ObservationKind || e.kind == SummaryKind
  }

  /** The `message` of a summary event, `""` when it has none. */
  function SummaryText(e: Event): string {
    if e.message.Some? then e.message.value else ""
  }

  /** `AgentCondensationObservation(text)`: a fresh summary event, not yet in the log. */
  function NewSummary(text: string): (e: Event)
    ensures IsSummary(e) && SummaryText(e) == text
  {
    Event(-1, "AgentCondensationObservation", SummaryKind, ContentString(text),
          Some(text), None, None, text, NoStamp)
  }

  /** Event ids increase strictly along the view, as they do in the event log. */
  predicate IdsIncreasing(view: View) {
    forall i, j :: 0 <= i < j < |view| ==> view[i].id < view[j].id
  }
}
