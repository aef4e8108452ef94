/**
 * The parts of a Kubernetes Event that the exporter reads.  Both the legacy
 * controller (store.go) and the collector (pkg/collector/event.go) work on
 * this record; `eventType` is the API's `Type` field.
 */
module Events {
  /** The object an event is about (`InvolvedObject`). */
  datatype ObjectReference = ObjectReference(kind: string, namespace: string, name: string, fieldPath: string)

  /** Who reported the event (`Source`). */
  datatype EventSource = EventSource(component: string, host: string)

  /** An event; `lastTimestamp` is in integer nanoseconds. */
  datatype Event = Event(
    name: string,
    namespace: string,
    resourceVersion: string,
    involvedObject: ObjectReference,
    reason: string,
    message: string,
    source: EventSource,
    count: int,
    lastTimestamp: int,
    eventType: string)

  /**
   * The outcome of looking a key up in an informer cache or lister when the
   * key is present: the event itself, or a lookup error.  A key that is not
   * in the map that stands for the cache is "not found".
   */
  datatype Lookup = Found(event: Event) | Failed(error: string)
}
