/**
 * The event type filter of pkg/filters/filters.go: an event passes when
 * its type equals one of the allowed types, ignoring case.
 */
module Filters {
  import opened Events

  /** Case folding of one character (ASCII letters only). */
  function FoldChar(c: char): char
  {
    if 'A' <= c <= 'Z' then (c as int + 32) as char else c
  }

  function Folded(s: string): (r: string)
    ensures |r| == |s|
  {
    seq(|s|, i requires 0 <= i < |s| => FoldChar(s[i]))
  }

  /** strings.EqualFold: equal after case folding. */
  predicate EqualFold(s: string, t: string)
  {
    Folded(s) == Folded(t)
  }

  /** Some allowed type matches `eventType` under case folding. */
  predicate AllowsType(allowedTypes: seq<string>, eventType: string)
  {
    exists t :: t in allowedTypes && EqualFold(eventType, t)
  }

  /** A filter that lets through the events whose type is in `allowedTypes`. */
  datatype EventTypeFilter = EventTypeFilter(allowedTypes: seq<string>)
  {
    /** Scans the allowed types in order and stops at the first match. */
    method Filter(event: Event) returns (r: bool)
      ensures r <==> AllowsType(allowedTypes, event.eventType)
      ensures allowedTypes == [] ==> !r
    {
      for i := 0 to |allowedTypes|
        invariant forall j :: 0 <= j < i ==> !EqualFold(event.eventType, allowedTypes[j])
      {
        if EqualFold(event.eventType, allowedTypes[i]) {
          return true;
        }
      }
      return false;
    }
  }

  /** NewEventTypeFilter: the filter keeps the given list as it is. */
  function NewEventTypeFilter(allowedTypes: seq<string>): (f: EventTypeFilter)
    ensures f.allowedTypes == allowedTypes
  {
    EventTypeFilter(allowedTypes)
  }

  /** Case-insensitive equality is an equivalence. */
  lemma EqualFoldIsEquivalence(s: string, t: string, u: string)
    ensures EqualFold(s, s)
    ensures EqualFold(s, t) ==> EqualFold(t, s)
    ensures EqualFold(s, t) && EqualFold(t, u) ==> EqualFold(s, u)
  {
  }

  /** Two types that differ only in the case of some ASCII letters match. */
  lemma UpperAndLowerMatch(s: string, t: string)
    requires |s| == |t|
    requires forall i :: 0 <= i < |s| ==>
      || s[i] == t[i]
      || ('A' <= s[i] <= 'Z' && t[i] == (s[i] as int + 32) as char)
      || ('A' <= t[i] <= 'Z' && s[i] == (t[i] as int + 32) as char)
    ensures EqualFold(s, t)
  {
    assert Folded(s) == Folded(t);
  }

  /**
   * The verdict depends only on which types are allowed, not on their
   * order or how often each is listed.
   */
  lemma AllowsTypeIgnoresOrderAndDuplicates(a: seq<string>, b: seq<string>, eventType: string)
    requires forall t :: t in a <==> t in b
    ensures AllowsType(a, eventType) <==> AllowsType(b, eventType)
  {
  }

  /** An empty allowed list lets nothing through. */
  lemma EmptyAllowsNothing(eventType: string)
    ensures !AllowsType([], eventType)
  {
  }

  /** The cases of filters_test.go, with its spelling "Waring" for the warning type. */
  lemma FilterTestCases()
    ensures AllowsType(["Waring"], "Waring")
    ensures AllowsType(["Normal"], "Normal")
    ensures !AllowsType(["Waring"], "Normal")
    ensures !AllowsType(["Normal"], "Waring")
    ensures AllowsType(["Normal", "Waring"], "Waring")
    ensures AllowsType(["Normal", "Waring"], "Normal")
  {
    assert EqualFold("Waring", "Waring");
    assert EqualFold("Normal", "Normal");
    assert Folded("Normal")[0] == 'n' && Folded("Waring")[0] == 'w';
    assert !EqualFold("Normal", "Waring") && !EqualFold("Waring", "Normal");
  }
}
