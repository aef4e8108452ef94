/**
 * The event side of the legacy controller in store.go: how observed events
 * feed the backoff store, and how a scrape joins the store's snapshot with
 * the event cache into one 0/1 gauge sample per event.
 *
 * The informer's event cache is a map from key to lookup outcome (a key
 * absent from the map does not exist), the metric channel is the returned
 * sequence of metrics, and the key function's result, which library code
 * computes, is a parameter.  ScrapMapper is this repository's code but
 * lists and decodes pods through library code, so the metrics it emits
 * are a parameter too.
 */
module Store {
  import opened Optional
  import opened Events
  import Backoff

  /** The kubelet's reason for a failed pod sync. */
  const FailedSync: string := "FailedSync"

  /** `sub` occurs in `s` starting at index `i`. */
  predicate OccursAt(s: string, sub: string, i: int)
  {
    0 <= i <= |s| - |sub| && s[i..i + |sub|] == sub
  }

  /** strings.Contains: `sub` occurs somewhere in `s`. */
  predicate Contains(s: string, sub: string)
  {
    exists i | 0 <= i <= |s| - |sub| :: OccursAt(s, sub, i)
  }

  /**
   * eventCleaning: a FailedSync event whose message names an image pull
   * error gets the error appended to its reason; ErrImagePull is checked
   * before ImagePullBackOff.  Nothing but the reason ever changes.
   */
  function EventCleaning(e: Event): (r: Event)
    ensures r.(reason := e.reason) == e
    ensures e.reason != FailedSync ==> r == e
    ensures e.reason == FailedSync && Contains(e.message, "ErrImagePull") ==>
      r.reason == "FailedSync_ErrImagePull"
    ensures e.reason == FailedSync && !Contains(e.message, "ErrImagePull") && Contains(e.message, "ImagePullBackOff") ==>
      r.reason == "FailedSync_ImagePullBackOff"
    ensures !Contains(e.message, "ErrImagePull") && !Contains(e.message, "ImagePullBackOff") ==> r == e
  {
    if e.reason == FailedSync then
      if Contains(e.message, "ErrImagePull") then
        e.(reason := e.reason + "_" + "ErrImagePull")
      else if Contains(e.message, "ImagePullBackOff") then
        e.(reason := e.reason + "_" + "ImagePullBackOff")
      else
        e
    else
      e
  }

  /** Cleaning an event twice is the same as cleaning it once. */
  lemma EventCleaningIdempotent(e: Event)
    ensures EventCleaning(EventCleaning(e)) == EventCleaning(e)
  {
  }

  /** A FailedSync message that names both errors is labelled with ErrImagePull. */
  lemma ErrImagePullWins(e: Event)
    requires e.reason == FailedSync
    requires Contains(e.message, "ErrImagePull") && Contains(e.message, "ImagePullBackOff")
    ensures EventCleaning(e).reason == "FailedSync_ErrImagePull"
  {
  }

  /** Such messages exist: ErrImagePull does win on a real case. */
  lemma BothErrorsCanOccur(e: Event)
    requires e.reason == FailedSync
    requires e.message == "ErrImagePull, then ImagePullBackOff"
    ensures Contains(e.message, "ErrImagePull") && Contains(e.message, "ImagePullBackOff")
    ensures EventCleaning(e).reason == "FailedSync_ErrImagePull"
  {
    assert OccursAt(e.message, "ErrImagePull", 0);
    assert OccursAt(e.message, "ImagePullBackOff", 19);
  }

  /** eval: a boolean as a gauge value. */
  function Eval(b: bool): (r: real)
    ensures b ==> r == 1.0
    ensures !b ==> r == 0.0
  {
    if b then 1.0 else 0.0
  }

  /** One `kubernetes_events` gauge sample: its seven labels and its value. */
  datatype Sample = Sample(
    eventNamespace: string,
    eventName: string,
    eventKind: string,
    eventReason: string,
    eventType: string,
    eventSubobject: string,
    eventSource: string,
    value: real)

  /**
   * The sample ScrapEvents builds for a cached event and its state: the
   * labels come from the involved object, the reason and type, and the
   * source as "host/component"; the value is 1 while the event is
   * happening and 0 otherwise.
   */
  function EventSample(e: Event, isHappening: bool): (s: Sample)
    ensures s.value == 1.0 <==> isHappening
    ensures s.value == 0.0 <==> !isHappening
    ensures s.eventNamespace == e.involvedObject.namespace && s.eventName == e.involvedObject.name
    ensures s.eventKind == e.involvedObject.kind && s.eventSubobject == e.involvedObject.fieldPath
    ensures s.eventReason == e.reason && s.eventType == e.eventType
    ensures s.eventSource == e.source.host + "/" + e.source.component
  {
    Sample(e.involvedObject.namespace, e.involvedObject.name, e.involvedObject.kind,
           e.reason, e.eventType, e.involvedObject.fieldPath,
           e.source.host + "/" + e.source.component, Eval(isHappening))
  }

  /**
   * One metric on the channel: a `kubernetes_events` sample, or one of the
   * `kubernetes_resource_mapper` gauges ScrapMapper emits, which carry
   * their own labels (four or five of them).
   */
  datatype Metric = EventMetric(sample: Sample) | MapperMetric(labels: seq<string>, value: real)

  /** The event samples as metrics, in the same order. */
  function AsMetrics(samples: seq<Sample>): (r: seq<Metric>)
    ensures |r| == |samples|
    ensures forall i :: 0 <= i < |r| ==> r[i] == EventMetric(samples[i])
  {
    seq(|samples|, i requires 0 <= i < |samples| => EventMetric(samples[i]))
  }

  /** The snapshot keys that have an event in the cache. */
  ghost predicate Emittable(snapshot: map<string, bool>, eventStore: map<string, Lookup>, k: string)
  {
    k in snapshot && k in eventStore && eventStore[k].Found?
  }

  /**
   * `samples` holds one sample for each emittable key, in the order
   * `order`, each built from the cached event and the key's state.
   */
  ghost predicate EmittedFor(snapshot: map<string, bool>, eventStore: map<string, Lookup>, samples: seq<Sample>, order: seq<string>)
  {
    && |order| == |samples|
    && (forall i, j :: 0 <= i < j < |order| ==> order[i] != order[j])
    && (forall k :: k in order <==> Emittable(snapshot, eventStore, k))
    && (forall i :: 0 <= i < |order| ==>
          Emittable(snapshot, eventStore, order[i]) &&
          samples[i] == EventSample(eventStore[order[i]].event, snapshot[order[i]]))
  }

  /** The controller's backoff store and its shutdown flag. */
  class Controller {
    const backoff: Backoff.BackoffStore
    var shutdown: bool

    /** NewController, without the informers: a fresh, empty backoff store. */
    constructor (init: int, max: int)
      ensures fresh(backoff)
      ensures backoff.baseDuration == init && backoff.maxDuration == max
      ensures backoff.perItemEntry == map[]
      ensures !shutdown
    {
      backoff := new Backoff.BackoffStore(init, max);
      shutdown := false;
    }

    /**
     * Handles an added or updated event: cleans it and, when a key could be
     * derived for it (`key`, the key function's result), records one
     * observation of that key at the event's last timestamp.  `now` is the
     * wall clock the store reads.  Returns the event as cleaned in place.
     */
    method SyncEvent(event: Event, key: Option<string>, now: int) returns (cleaned: Event)
      modifies backoff
      ensures cleaned == EventCleaning(event)
      ensures key.None? ==> backoff.perItemEntry == old(backoff.perItemEntry)
      ensures key.Some? ==>
        (backoff.perItemEntry ==
         Backoff.Advanced(old(backoff.perItemEntry), key.value, event.lastTimestamp, now, backoff.baseDuration, backoff.maxDuration))
    {
      cleaned := EventCleaning(event);
      if key.None? {
        return;
      }
      backoff.Next(key.value, cleaned.count, cleaned.lastTimestamp, now);
    }

    /**
     * Emits one sample for every key of the snapshot at `now` whose event is
     * in `eventStore`, skipping keys whose lookup fails or finds nothing,
     * then collects garbage once, at `gcNow`.  The error it returns is
     * always None: the not-found error is assigned to a variable local to
     * the loop body.  `order` is the order the keys were visited in.
     */
    method ScrapEvents(eventStore: map<string, Lookup>, now: int, gcNow: int)
      returns (samples: seq<Sample>, err: Option<string>, ghost order: seq<string>)
      modifies backoff
      ensures err == None
      ensures EmittedFor(Backoff.Snapshot(old(backoff.perItemEntry), now, backoff.maxDuration), eventStore, samples, order)
      ensures backoff.perItemEntry == Backoff.Collected(old(backoff.perItemEntry), gcNow, backoff.maxDuration)
    {
      err := None;
      var state := backoff.AllKeysStateSinceUpdate(now);
      samples, order := [], [];
      var keys := state.Keys;
      while keys != {}
        invariant keys <= state.Keys
        invariant |order| == |samples|
        invariant forall i, j :: 0 <= i < j < |order| ==> order[i] != order[j]
        invariant forall k :: k in order <==> Emittable(state, eventStore, k) && k !in keys
        invariant forall i :: 0 <= i < |order| ==>
          Emittable(state, eventStore, order[i]) &&
          samples[i] == EventSample(eventStore[order[i]].event, state[order[i]])
        decreases keys
      {
        var key :| key in keys;
        keys := keys - {key};
        if key in eventStore && eventStore[key].Failed? {
          continue;
        } else if key !in eventStore {
          // the source assigns this error to the loop's own `err`, so it is never returned
          var notFound := Some("event not found: " + key);
          continue;
        }
        var event := eventStore[key].event;
        samples := samples + [EventSample(event, state[key])];
        order := order + [key];
      }
      backoff.GC(gcNow);
    }

    /**
     * Scrap: the event samples as metrics, then, only if ScrapEvents
     * reported no error, the pod-to-owner metrics (`mapperMetrics`, what
     * ScrapMapper emits).  Since ScrapEvents never fails, both always
     * appear.  `eventSamples` are the samples ScrapEvents built and `order`
     * the order in which it visited the keys.
     */
    method Scrap(eventStore: map<string, Lookup>, now: int, gcNow: int, mapperMetrics: seq<Metric>)
      returns (metrics: seq<Metric>, err: Option<string>, ghost eventSamples: seq<Sample>, ghost order: seq<string>)
      modifies backoff
      ensures err == None
      ensures metrics == AsMetrics(eventSamples) + mapperMetrics
      ensures EmittedFor(Backoff.Snapshot(old(backoff.perItemEntry), now, backoff.maxDuration),
        eventStore, eventSamples, order)
      ensures backoff.perItemEntry == Backoff.Collected(old(backoff.perItemEntry), gcNow, backoff.maxDuration)
    {
      var samples: seq<Sample>;
      samples, err, order := ScrapEvents(eventStore, now, gcNow);
      eventSamples := samples;
      metrics := AsMetrics(samples);
      if err.Some? {
        return;
      }
      metrics := metrics + mapperMetrics;
    }

    /**
     * Stop: the first call sets the shutdown flag and succeeds; every later
     * call fails and changes nothing.
     */
    method Stop() returns (err: Option<string>)
      modifies this
      ensures shutdown
      ensures err == None <==> !old(shutdown)
      ensures err.Some? ==> err.value == "shutdown already in progress"
    {
      if !shutdown {
        shutdown := true;
        return None;
      }
      return Some("shutdown already in progress");
    }
  }
}
