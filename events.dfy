/**
 * The Event Record (meshes.EventsResponse) and what the stream helpers
 * StreamErr, StreamWarn and StreamInfo do to a record before publishing it.
 */
module Events {
  import opened Errors

  datatype EventType = InfoEvent | WarnEvent | ErrorEvent

  datatype Event = Event(
    operationId: string,
    eventType: EventType,
    summary: string,
    details: string,
    errorCode: string,
    probableCause: string,
    suggestedRemediation: string,
    component: string,
    componentName: string)

  /** The record carries the envelope of `e`: its text as details, its code, cause and remedy. */
  predicate CarriesEnvelope(ev: Event, e: Error)
  {
    && ev.details == Message(e)
    && ev.errorCode == Code(e)
    && ev.probableCause == Cause(e)
    && ev.suggestedRemediation == Remedy(e)
  }

  /** The record as StreamErr or StreamWarn hands it to the sink: classified as `t`
      and carrying the code, cause and remedy of `e`; its text is left as it was. */
  function Classify(ev: Event, t: EventType, e: Error): (r: Event)
    ensures r.eventType == t
    ensures r.errorCode == Code(e) && r.probableCause == Cause(e) && r.suggestedRemediation == Remedy(e)
    ensures r.(eventType := ev.eventType, errorCode := ev.errorCode,
               probableCause := ev.probableCause, suggestedRemediation := ev.suggestedRemediation) == ev
  {
    ev.(eventType := t, errorCode := Code(e), probableCause := Cause(e), suggestedRemediation := Remedy(e))
  }

  /** The record a handler publishes when its collaborator failed with `e`. */
  function Failed(ev: Event, summary: string, e: Error): (r: Event)
    ensures r.eventType == ErrorEvent && r.summary == summary && CarriesEnvelope(r, e)
    ensures r.operationId == ev.operationId
    ensures r.component == ev.component && r.componentName == ev.componentName
  {
    Classify(ev.(summary := summary, details := Message(e)), ErrorEvent, e)
  }

  /** The record a handler publishes when its collaborator succeeded. */
  function Succeeded(ev: Event, summary: string, details: string): (r: Event)
    ensures r.eventType == InfoEvent && r.summary == summary && r.details == details
    ensures r.(eventType := ev.eventType, summary := ev.summary, details := ev.details) == ev
  {
    ev.(eventType := InfoEvent, summary := summary, details := details)
  }

  /** A *meshes.EventsResponse: the handlers fill its fields in place before streaming it. */
  class EventsResponse {
    var operationId: string
    var eventType: EventType
    var summary: string
    var details: string
    var errorCode: string
    var probableCause: string
    var suggestedRemediation: string
    var component: string
    var componentName: string

    /** The record as it would be published now. */
    function Value(): Event
      reads this
    {
      Event(operationId, eventType, summary, details, errorCode, probableCause,
            suggestedRemediation, component, componentName)
    }

    constructor (ev: Event)
      ensures Value() == ev
    {
      operationId := ev.operationId;
      eventType := ev.eventType;
      summary := ev.summary;
      details := ev.details;
      errorCode := ev.errorCode;
      probableCause := ev.probableCause;
      suggestedRemediation := ev.suggestedRemediation;
      component := ev.component;
      componentName := ev.componentName;
    }
  }
}
