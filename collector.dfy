/**
 * The cache rules of the event collector in pkg/collector/event.go: which
 * informer updates are queued, which events pass the filters, and how the
 * collector's cache, keyed by event name, follows the lister.
 *
 * The lister is a map from (namespace, name) to lookup outcome (a pair
 * absent from the map is "not found"), and the outcome of splitting a
 * queue key into namespace and name, which library code computes, is a
 * parameter.
 */
module Collector {
  import opened Optional
  import opened Events
  import Filters

  /**
   * The informer's update handler: the new object is queued unless its
   * resource version equals the old one (a resync that changed nothing).
   */
  function OnUpdate(oldObj: Event, newObj: Event): (queued: seq<Event>)
    ensures queued == [] <==> newObj.resourceVersion == oldObj.resourceVersion
    ensures queued != [] ==> queued == [newObj]
  {
    if newObj.resourceVersion == oldObj.resourceVersion then [] else [newObj]
  }

  /** Every filter in `filters` lets the event through. */
  predicate AllAccept(filters: seq<Filters.EventTypeFilter>, event: Event)
  {
    forall i :: 0 <= i < |filters| ==> Filters.AllowsType(filters[i].allowedTypes, event.eventType)
  }

  /** A single type filter accepts exactly what its allowed list allows. */
  lemma SingleFilterAccepts(eventTypes: seq<string>, event: Event)
    ensures AllAccept([Filters.NewEventTypeFilter(eventTypes)], event) <==> Filters.AllowsType(eventTypes, event.eventType)
  {
    assert [Filters.NewEventTypeFilter(eventTypes)][0].allowedTypes == eventTypes;
  }

  /** The collector's filters and its cache of events, keyed by event name. */
  class EventCollector {
    var filters: seq<Filters.EventTypeFilter>
    var cache: map<string, Event>

    /**
     * NewEventCollector, without the informer and the queue: an empty cache
     * and one type filter built from the configured event types.
     */
    constructor (eventTypes: seq<string>)
      ensures cache == map[]
      ensures filters == [Filters.NewEventTypeFilter(eventTypes)]
    {
      cache := map[];
      filters := [];
      new;
      AddFilter(eventTypes);
    }

    /** Appends one type filter for `eventTypes`, keeping the earlier filters. */
    method AddFilter(eventTypes: seq<string>)
      modifies this
      ensures filters == old(filters) + [Filters.NewEventTypeFilter(eventTypes)]
      ensures cache == old(cache)
    {
      var typeFilter := Filters.NewEventTypeFilter(eventTypes);
      filters := filters + [typeFilter];
    }

    /**
     * Whether every filter accepts the event, checked in order and stopping
     * at the first refusal; with no filters every event passes.
     */
    method EventFilter(event: Event) returns (r: bool)
      ensures r <==> AllAccept(filters, event)
      ensures filters == [] ==> r
    {
      for i := 0 to |filters|
        invariant AllAccept(filters[..i], event)
      {
        var ok := filters[i].Filter(event);
        if !ok {
          return false;
        }
        assert filters[..i + 1] == filters[..i] + [filters[i]];
      }
      assert filters[..|filters|] == filters;
      return true;
    }

    /**
     * Handles one queued key, given as the outcome of splitting it into
     * namespace and name (None when the key is malformed).
     *  - malformed key: nothing changes and no error is reported;
     *  - event not found: its name is dropped from the cache;
     *  - lookup error: the error is returned and nothing changes;
     *  - event found: it is cached under its name if every filter accepts it.
     */
    method SyncEvent(split: Option<(string, string)>, lister: map<(string, string), Lookup>)
      returns (err: Option<string>)
      modifies this
      ensures filters == old(filters)
      ensures split.None? ==> err == None && cache == old(cache)
      ensures split.Some? && split.value !in lister ==>
        err == None && cache == old(cache) - {split.value.1}
      ensures split.Some? && split.value in lister && lister[split.value].Failed? ==>
        err == Some(lister[split.value].error) && cache == old(cache)
      ensures split.Some? && split.value in lister && lister[split.value].Found? ==>
        var event := lister[split.value].event;
        && err == None
        && cache == (if AllAccept(filters, event) then old(cache)[event.name := event] else old(cache))
    {
      if split.None? {
        return None;
      }
      var (namespace, name) := split.value;
      if (namespace, name) !in lister {
        if name in cache {
          cache := cache - {name};
        }
        return None;
      }
      match lister[(namespace, name)]
      case Failed(e) =>
        return Some(e);
      case Found(event) =>
        var pass := EventFilter(event);
        if pass {
          cache := cache[event.name := event];
        }
        return None;
    }
  }
}
