/**
 * The backoff-windowed liveness tracker of backoff.go.
 *
 * Every tracked key holds a quiet window and the time of its last
 * observation.  Each observation doubles the window up to a cap; a key
 * that has been silent for strictly more than twice the cap is expired:
 * queries ignore it, the next observation restarts it at the base window,
 * and garbage collection deletes it.
 *
 * Times and durations are integer nanoseconds.  Where the source reads the
 * wall clock (time.Now() in Next and GC) the model takes a `now` parameter.
 *
 * The first half of the module states the behaviour as functions of the
 * entry map; the class BackoffStore is the imperative store, and each of
 * its methods is proved against those functions.
 */
module Backoff {
  import opened Optional

  const Second: int := 1_000_000_000

  /** One tracked key: its current quiet window and its last update time. */
  datatype Entry = Entry(backoff: int, lastUpdate: int)

  /** Strictly more than twice the cap has elapsed since `lastUpdate`. */
  predicate HasExpired(eventTime: int, lastUpdate: int, maxDuration: int)
    // the boundary itself is not expired
    ensures eventTime - lastUpdate <= maxDuration * 2 ==> !HasExpired(eventTime, lastUpdate, maxDuration)
    // with a non-negative cap, only an update strictly in the past can have expired
    ensures 0 <= maxDuration && HasExpired(eventTime, lastUpdate, maxDuration) ==> lastUpdate < eventTime
  {
    eventTime - lastUpdate > maxDuration * 2
  }

  /** The smaller of two durations (integer.Int64Min). */
  function Int64Min(a: int, b: int): int
  {
    if a < b then a else b
  }

  /** The entry stored for `id`, if any. */
  function Lookup(entries: map<string, Entry>, id: string): Option<Entry>
  {
    if id in entries then Some(entries[id]) else None
  }

  /**
   * The entry an observation at `eventTime` leaves behind, given the entry
   * it finds (`prev`) and the wall clock `now` used for the expiry test.
   */
  function NextEntry(prev: Option<Entry>, eventTime: int, now: int, base: int, max: int): (e: Entry)
    // the observation time is recorded, even when it is older than the last one
    ensures e.lastUpdate == eventTime
    // absent or expired: restart at the base window
    ensures prev.None? || HasExpired(now, prev.value.lastUpdate, max) ==> e.backoff == base
    // present and live: the window is the least of twice the old one and the cap
    ensures prev.Some? && !HasExpired(now, prev.value.lastUpdate, max) ==>
      && e.backoff <= max
      && e.backoff <= 2 * prev.value.backoff
      && (e.backoff == max || e.backoff == 2 * prev.value.backoff)
    // between restarts the window never shrinks
    ensures prev.Some? && !HasExpired(now, prev.value.lastUpdate, max) && 0 <= prev.value.backoff <= max ==>
      prev.value.backoff <= e.backoff
  {
    if prev.None? || HasExpired(now, prev.value.lastUpdate, max) then
      Entry(base, eventTime)
    else
      Entry(Int64Min(prev.value.backoff * 2, max), eventTime)
  }

  /** The entry map after one observation of `id`. */
  function Advanced(entries: map<string, Entry>, id: string, eventTime: int, now: int, base: int, max: int): map<string, Entry>
  {
    entries[id := NextEntry(Lookup(entries, id), eventTime, now, base, max)]
  }

  /** The entry map after garbage collection at `now`: the entries that have not expired. */
  function Collected(entries: map<string, Entry>, now: int, max: int): map<string, Entry>
  {
    map k | k in entries && !HasExpired(now, entries[k].lastUpdate, max) :: entries[k]
  }

  /**
   * The state of every live key at `eventTime`: expired keys are left out,
   * and a live key is in backoff while less than its window has elapsed.
   */
  function Snapshot(entries: map<string, Entry>, eventTime: int, max: int): map<string, bool>
  {
    map k | k in entries && !HasExpired(eventTime, entries[k].lastUpdate, max) ::
      eventTime - entries[k].lastUpdate < entries[k].backoff
  }

  /** Every window lies between the base and the cap. */
  ghost predicate WindowsWithin(entries: map<string, Entry>, base: int, max: int)
  {
    forall k :: k in entries ==> base <= entries[k].backoff <= max
  }

  /** An operation on the store: an observation, a reset, or a collection pass. */
  datatype Op =
    | Observe(id: string, eventTime: int, now: int)
    | Forget(id: string)
    | Collect(now: int)

  function Apply(entries: map<string, Entry>, op: Op, base: int, max: int): map<string, Entry>
  {
    match op
    case Observe(id, eventTime, now) => Advanced(entries, id, eventTime, now, base, max)
    case Forget(id) => entries - {id}
    case Collect(now) => Collected(entries, now, max)
  }

  /** The entry map after a sequence of operations, applied in order. */
  function Run(entries: map<string, Entry>, ops: seq<Op>, base: int, max: int): map<string, Entry>
    decreases |ops|
  {
    if ops == [] then entries else Run(Apply(entries, ops[0], base, max), ops[1..], base, max)
  }

  /** The same key observed `n` times at the same instant. */
  function ObserveRepeatedly(entries: map<string, Entry>, id: string, n: nat, eventTime: int, now: int, base: int, max: int): map<string, Entry>
    decreases n
  {
    if n == 0 then entries
    else Advanced(ObserveRepeatedly(entries, id, n - 1, eventTime, now, base, max), id, eventTime, now, base, max)
  }

  function Pow2(n: nat): nat
  {
    if n == 0 then 1 else 2 * Pow2(n - 1)
  }

  /** An observation touches only its own key, which it leaves present. */
  lemma AdvancedTouchesOnlyId(entries: map<string, Entry>, id: string, eventTime: int, now: int, base: int, max: int)
    ensures var r := Advanced(entries, id, eventTime, now, base, max);
      && r.Keys == entries.Keys + {id}
      && r[id].lastUpdate == eventTime
      && forall k :: k in entries && k != id ==> r[k] == entries[k]
  {
  }

  /** Garbage collection keeps exactly the live entries, each unchanged. */
  lemma CollectedExactlyLive(entries: map<string, Entry>, now: int, max: int)
    ensures forall k :: k in Collected(entries, now, max) <==> k in entries && !HasExpired(now, entries[k].lastUpdate, max)
    ensures forall k :: k in Collected(entries, now, max) ==> Collected(entries, now, max)[k] == entries[k]
  {
  }

  /** The expiry test is strict: exactly twice the cap is still live. */
  lemma ExpiryIsStrict(lastUpdate: int, max: int)
    ensures !HasExpired(lastUpdate + 2 * max, lastUpdate, max)
    ensures HasExpired(lastUpdate + 2 * max + 1, lastUpdate, max)
  {
  }

  /** Once expired, an entry stays expired at every later time. */
  lemma ExpiryIsPermanent(g: int, t: int, lastUpdate: int, max: int)
    requires g <= t
    requires HasExpired(g, lastUpdate, max)
    ensures HasExpired(t, lastUpdate, max)
  {
  }

  /**
   * A collection pass at `g` is invisible to every snapshot at `t >= g`:
   * it deletes only entries that such a snapshot would leave out anyway.
   * In particular the scrape cycle, which collects after taking its
   * snapshot, removes no key that a later scrape would report.
   */
  lemma SnapshotIgnoresCollection(entries: map<string, Entry>, g: int, t: int, max: int)
    requires g <= t
    ensures Snapshot(Collected(entries, g, max), t, max) == Snapshot(entries, t, max)
  {
  }

  /**
   * A collection pass at `g` does not change what a later observation
   * (wall clock `now >= g`) stores for its key: a collected entry would
   * have been found expired and restarted at the base window anyway.
   */
  lemma ObservationIgnoresCollection(entries: map<string, Entry>, g: int, id: string, eventTime: int, now: int, base: int, max: int)
    requires g <= now
    ensures Advanced(Collected(entries, g, max), id, eventTime, now, base, max)[id]
      == Advanced(entries, id, eventTime, now, base, max)[id]
  {
  }

  /**
   * `fewer` is `more` with some keys removed, each of them expired at `g`:
   * what a collection pass at `g` leaves behind, and what survives of it.
   */
  ghost predicate MissingOnlyExpired(fewer: map<string, Entry>, more: map<string, Entry>, g: int, max: int)
  {
    && fewer.Keys <= more.Keys
    && (forall k :: k in fewer ==> fewer[k] == more[k])
    && (forall k :: k in more && k !in fewer ==> HasExpired(g, more[k].lastUpdate, max))
  }

  /** Every observation and collection pass in `ops` reads a clock of at least `g`. */
  ghost predicate ClocksFrom(ops: seq<Op>, g: int)
  {
    forall i :: 0 <= i < |ops| && !ops[i].Forget? ==> g <= ops[i].now
  }

  /** One operation with a clock of at least `g` keeps the difference expired at `g`. */
  lemma ApplyKeepsMissingOnlyExpired(fewer: map<string, Entry>, more: map<string, Entry>, op: Op, g: int, base: int, max: int)
    requires MissingOnlyExpired(fewer, more, g, max)
    requires !op.Forget? ==> g <= op.now
    ensures MissingOnlyExpired(Apply(fewer, op, base, max), Apply(more, op, base, max), g, max)
  {
  }

  /** The same holds for a whole sequence of such operations. */
  lemma {:induction false} RunKeepsMissingOnlyExpired(fewer: map<string, Entry>, more: map<string, Entry>, ops: seq<Op>, g: int, base: int, max: int)
    requires MissingOnlyExpired(fewer, more, g, max)
    requires ClocksFrom(ops, g)
    ensures MissingOnlyExpired(Run(fewer, ops, base, max), Run(more, ops, base, max), g, max)
    decreases |ops|
  {
    if ops != [] {
      assert !ops[0].Forget? ==> g <= ops[0].now;
      ApplyKeepsMissingOnlyExpired(fewer, more, ops[0], g, base, max);
      assert ClocksFrom(ops[1..], g) by {
        forall i | 0 <= i < |ops[1..]| && !ops[1..][i].Forget?
          ensures g <= ops[1..][i].now
        {
          assert ops[1..][i] == ops[i + 1];
        }
      }
      RunKeepsMissingOnlyExpired(Apply(fewer, ops[0], base, max), Apply(more, ops[0], base, max), ops[1..], g, base, max);
    }
  }

  /**
   * A collection pass at `g` is invisible to every later run of
   * operations whose clocks read at least `g`, as seen by any snapshot
   * at `t >= g`: collecting early never changes what a scrape reports.
   */
  lemma RunIgnoresCollection(entries: map<string, Entry>, g: int, ops: seq<Op>, t: int, base: int, max: int)
    requires g <= t
    requires ClocksFrom(ops, g)
    ensures Snapshot(Run(Collected(entries, g, max), ops, base, max), t, max)
      == Snapshot(Run(entries, ops, base, max), t, max)
  {
    RunKeepsMissingOnlyExpired(Collected(entries, g, max), entries, ops, g, base, max);
    var a, b := Run(Collected(entries, g, max), ops, base, max), Run(entries, ops, base, max);
    forall k | k in b && k !in a
      ensures HasExpired(t, b[k].lastUpdate, max)
    {
      ExpiryIsPermanent(g, t, b[k].lastUpdate, max);
    }
  }

  /** A collection pass is idempotent. */
  lemma CollectIdempotent(entries: map<string, Entry>, now: int, max: int)
    ensures Collected(Collected(entries, now, max), now, max) == Collected(entries, now, max)
  {
  }

  /** One operation keeps every window between the base and the cap. */
  lemma ApplyKeepsWindowsWithin(entries: map<string, Entry>, op: Op, base: int, max: int)
    requires 0 <= base <= max
    requires WindowsWithin(entries, base, max)
    ensures WindowsWithin(Apply(entries, op, base, max), base, max)
  {
  }

  /**
   * Whatever mix of observations, resets and collections the store sees,
   * every window stays between the base and the cap, provided the base
   * is not negative and does not exceed the cap.
   */
  lemma {:induction false} RunKeepsWindowsWithin(entries: map<string, Entry>, ops: seq<Op>, base: int, max: int)
    requires 0 <= base <= max
    requires WindowsWithin(entries, base, max)
    ensures WindowsWithin(Run(entries, ops, base, max), base, max)
    decreases |ops|
  {
    if ops != [] {
      ApplyKeepsWindowsWithin(entries, ops[0], base, max);
      RunKeepsWindowsWithin(Apply(entries, ops[0], base, max), ops[1..], base, max);
    }
  }

  /** From an empty store, every window ever stored lies in [base, max]. */
  lemma RunFromEmptyKeepsWindowsWithin(ops: seq<Op>, base: int, max: int)
    requires 0 <= base <= max
    ensures WindowsWithin(Run(map[], ops, base, max), base, max)
  {
    RunKeepsWindowsWithin(map[], ops, base, max);
  }

  /**
   * The special case of one event time and one wall clock, repeated `n`
   * times: the window of a fresh key is min(base * 2^(n-1), max).
   */
  lemma {:induction false} RepeatedObservationsDouble(entries: map<string, Entry>, id: string, n: nat, eventTime: int, now: int, base: int, max: int)
    requires id !in entries
    requires 1 <= n
    requires 0 <= base <= max
    requires !HasExpired(now, eventTime, max)
    ensures var r := ObserveRepeatedly(entries, id, n, eventTime, now, base, max);
      id in r && r[id] == Entry(Int64Min(base * Pow2(n - 1), max), eventTime)
    decreases n
  {
    if n == 1 {
      assert ObserveRepeatedly(entries, id, 0, eventTime, now, base, max) == entries;
    } else {
      RepeatedObservationsDouble(entries, id, n - 1, eventTime, now, base, max);
      var w := Int64Min(base * Pow2(n - 2), max);
      assert base * Pow2(n - 1) == 2 * (base * Pow2(n - 2));
      assert Int64Min(w * 2, max) == Int64Min(base * Pow2(n - 1), max);
    }
  }

  /** One observation of a key: the event's time and the wall clock read for it. */
  datatype Sighting = Sighting(eventTime: int, now: int)

  /** The entry map after observing `id` at each sighting, in order. */
  function ObserveAt(entries: map<string, Entry>, id: string, sightings: seq<Sighting>, base: int, max: int): map<string, Entry>
    decreases |sightings|
  {
    if sightings == [] then entries
    else
      var last := sightings[|sightings| - 1];
      Advanced(ObserveAt(entries, id, sightings[..|sightings| - 1], base, max), id, last.eventTime, last.now, base, max)
  }

  /** Each sighting after the first finds the previous one's entry still live. */
  ghost predicate LiveChain(sightings: seq<Sighting>, max: int)
  {
    forall i :: 1 <= i < |sightings| ==> !HasExpired(sightings[i].now, sightings[i - 1].eventTime, max)
  }

  /**
   * Observations of a fresh key, each arriving before the previous one
   * expired, double its window from the base up to the cap, whatever
   * event times and wall clocks they carry: after `n` of them the window
   * is min(base * 2^(n-1), max) and the last event time is stored.
   */
  lemma {:induction false} LiveObservationsDouble(entries: map<string, Entry>, id: string, sightings: seq<Sighting>, base: int, max: int)
    requires id !in entries
    requires 1 <= |sightings|
    requires 0 <= base <= max
    requires LiveChain(sightings, max)
    ensures var r := ObserveAt(entries, id, sightings, base, max);
      id in r && r[id] == Entry(Int64Min(base * Pow2(|sightings| - 1), max), sightings[|sightings| - 1].eventTime)
    decreases |sightings|
  {
    var n := |sightings|;
    var prefix := sightings[..n - 1];
    if n == 1 {
      assert ObserveAt(entries, id, prefix, base, max) == entries;
    } else {
      assert LiveChain(prefix, max) by {
        forall i | 1 <= i < |prefix|
          ensures !HasExpired(prefix[i].now, prefix[i - 1].eventTime, max)
        {
          assert prefix[i] == sightings[i] && prefix[i - 1] == sightings[i - 1];
        }
      }
      LiveObservationsDouble(entries, id, prefix, base, max);
      assert prefix[n - 2] == sightings[n - 2];
      assert !HasExpired(sightings[n - 1].now, sightings[n - 2].eventTime, max);
      var w := Int64Min(base * Pow2(n - 2), max);
      assert base * Pow2(n - 1) == 2 * (base * Pow2(n - 2));
      assert Int64Min(w * 2, max) == Int64Min(base * Pow2(n - 1), max);
    }
  }

  /** With a 10s base and a 5min cap, windows run 10s, 20s, 40s, 80s, 160s, 300s, 300s. */
  lemma DoublingSchedule(entries: map<string, Entry>, id: string, eventTime: int, now: int)
    requires id !in entries
    requires !HasExpired(now, eventTime, 300 * Second)
    ensures forall n: nat | 1 <= n <= 7 ::
      var r := ObserveRepeatedly(entries, id, n, eventTime, now, 10 * Second, 300 * Second);
      id in r && r[id].backoff == [10, 20, 40, 80, 160, 300, 300][n - 1] * Second
  {
    forall n: nat | 1 <= n <= 7
      ensures var r := ObserveRepeatedly(entries, id, n, eventTime, now, 10 * Second, 300 * Second);
        id in r && r[id].backoff == [10, 20, 40, 80, 160, 300, 300][n - 1] * Second
    {
      RepeatedObservationsDouble(entries, id, n, eventTime, now, 10 * Second, 300 * Second);
      assert Pow2(0) == 1 && Pow2(1) == 2 && Pow2(2) == 4 && Pow2(3) == 8;
      assert Pow2(4) == 16 && Pow2(5) == 32 && Pow2(6) == 64;
    }
  }

  /**
   * A long silence restarts the window: an observation that finds its key
   * expired stores the base window whatever the old window was.
   */
  lemma SilenceRestartsWindow(entries: map<string, Entry>, id: string, eventTime: int, now: int, base: int, max: int)
    requires id in entries && HasExpired(now, entries[id].lastUpdate, max)
    ensures Advanced(entries, id, eventTime, now, base, max)[id] == Entry(base, eventTime)
  {
  }

  /** The cases of backoff_test.go's TestBackoff_Next, with a 10s base and a 5min cap. */
  lemma NextTestCases(date: int, now: int, created: int)
    requires created <= now <= created + Second
    ensures Advanced(map[], "entry", date, now, 10 * Second, 300 * Second)["entry"] == Entry(10 * Second, date)
    ensures Advanced(map["entry" := Entry(10 * Second, created)], "entry", date, now, 10 * Second, 300 * Second)["entry"]
      == Entry(20 * Second, date)
    ensures Advanced(map["entry" := Entry(200 * Second, created)], "entry", date, now, 10 * Second, 300 * Second)["entry"]
      == Entry(300 * Second, date)
  {
  }

  /** The cases of backoff_test.go's TestBackoff_AllKeysStateSinceUpdate. */
  lemma SnapshotTestCases(now: int)
    ensures Snapshot(map[], now, 300 * Second) == map[]
    ensures Snapshot(map["entry" := Entry(10 * Second, now)], now, 300 * Second) == map["entry" := true]
    ensures Snapshot(map["entry" := Entry(10 * Second, now - 20 * Second)], now, 300 * Second) == map["entry" := false]
    ensures Snapshot(map["entry1" := Entry(10 * Second, now - Second),
                         "entry2" := Entry(10 * Second, now - 5 * Second),
                         "entry3" := Entry(10 * Second, now - 20 * Second)], now, 300 * Second)
      == map["entry1" := true, "entry2" := true, "entry3" := false]
  {
  }

  /**
   * A key observed once at t0 is in backoff at t0, out of backoff at
   * t0 + base, still reported at 20s, and gone from the snapshot and from
   * the store once more than twice the cap has passed (10s base, 5min cap).
   */
  lemma SingleKeyLifecycle(t0: int)
    ensures var m := Advanced(map[], "A", t0, t0, 10 * Second, 300 * Second);
      && Snapshot(m, t0 + Second, 300 * Second) == map["A" := true]
      && Snapshot(m, t0 + 10 * Second, 300 * Second) == map["A" := false]
      && Snapshot(m, t0 + 20 * Second, 300 * Second) == map["A" := false]
      && Snapshot(m, t0 + 600 * Second, 300 * Second) == map["A" := false]
      && Snapshot(m, t0 + 700 * Second, 300 * Second) == map[]
      && Collected(m, t0 + 700 * Second, 300 * Second) == map[]
  {
  }

  /**
   * The store of backoff.go.  `perItemEntry` maps each key to its entry;
   * the base window and the cap are fixed at construction.
   */
  class BackoffStore {
    const baseDuration: int
    const maxDuration: int
    var perItemEntry: map<string, Entry>

    /** NewBackoff: an empty store with the given base window and cap. */
    constructor (init: int, max: int)
      ensures baseDuration == init && maxDuration == max
      ensures perItemEntry == map[]
    {
      baseDuration := init;
      maxDuration := max;
      perItemEntry := map[];
    }

    /**
     * Records an observation of `id` at `eventTime`; `now` is the wall
     * clock used for the expiry test.  `count` is accepted and unused.
     */
    method Next(id: string, count: int, eventTime: int, now: int)
      modifies this
      ensures perItemEntry == Advanced(old(perItemEntry), id, eventTime, now, baseDuration, maxDuration)
      ensures id in perItemEntry && perItemEntry[id].lastUpdate == eventTime
      ensures forall k :: k != id ==> Lookup(perItemEntry, k) == Lookup(old(perItemEntry), k)
      ensures 0 <= baseDuration <= maxDuration && old(WindowsWithin(perItemEntry, baseDuration, maxDuration)) ==>
        WindowsWithin(perItemEntry, baseDuration, maxDuration)
    {
      if id !in perItemEntry || HasExpired(now, perItemEntry[id].lastUpdate, maxDuration) {
        perItemEntry := perItemEntry[id := Entry(baseDuration, eventTime)];
      } else {
        var entry := perItemEntry[id];
        var delay := entry.backoff * 2;
        entry := entry.(lastUpdate := eventTime);
        entry := entry.(backoff := Int64Min(delay, maxDuration));
        perItemEntry := perItemEntry[id := entry];
      }
      if 0 <= baseDuration <= maxDuration && old(WindowsWithin(perItemEntry, baseDuration, maxDuration)) {
        ApplyKeepsWindowsWithin(old(perItemEntry), Observe(id, eventTime, now), baseDuration, maxDuration);
      }
    }

    /** Forgets `id`; every other entry is kept as it was. */
    method Reset(id: string)
      modifies this
      ensures perItemEntry == old(perItemEntry) - {id}
      ensures forall t :: !IsInBackOffSinceUpdate(id, t)
      ensures forall t :: id !in Snapshot(perItemEntry, t, maxDuration)
    {
      perItemEntry := perItemEntry - {id};
    }

    /**
     * Whether `id` is inside its quiet window at `eventTime`: false when
     * the key is absent or expired, otherwise elapsed < window.
     */
    function IsInBackOffSinceUpdate(id: string, eventTime: int): (r: bool)
      reads this
      ensures r <==> id in Snapshot(perItemEntry, eventTime, maxDuration) && Snapshot(perItemEntry, eventTime, maxDuration)[id]
      ensures r ==> id in perItemEntry && eventTime - perItemEntry[id].lastUpdate < perItemEntry[id].backoff
      ensures id in perItemEntry && eventTime - perItemEntry[id].lastUpdate == perItemEntry[id].backoff ==> !r
    {
      if id !in perItemEntry then false
      else if HasExpired(eventTime, perItemEntry[id].lastUpdate, maxDuration) then false
      else eventTime - perItemEntry[id].lastUpdate < perItemEntry[id].backoff
    }

    /** Deletes every entry that has expired at `now` and nothing else. */
    method GC(now: int)
      modifies this
      ensures perItemEntry == Collected(old(perItemEntry), now, maxDuration)
      ensures old(WindowsWithin(perItemEntry, baseDuration, maxDuration)) ==>
        WindowsWithin(perItemEntry, baseDuration, maxDuration)
    {
      var keys := perItemEntry.Keys;
      while keys != {}
        invariant keys <= old(perItemEntry).Keys
        invariant perItemEntry == map k | k in old(perItemEntry) && (k in keys || !HasExpired(now, old(perItemEntry)[k].lastUpdate, maxDuration)) :: old(perItemEntry)[k]
        decreases keys
      {
        var id :| id in keys;
        var entry := perItemEntry[id];
        if now - entry.lastUpdate > maxDuration * 2 {
          perItemEntry := perItemEntry - {id};
        }
        keys := keys - {id};
      }
    }

    /** The entry of a key the caller knows to be present. */
    function Get(id: string): (r: (int, int))
      reads this
      requires id in perItemEntry
      ensures Entry(r.0, r.1) == perItemEntry[id]
      ensures WindowsWithin(perItemEntry, baseDuration, maxDuration) ==> baseDuration <= r.0 <= maxDuration
    {
      (perItemEntry[id].backoff, perItemEntry[id].lastUpdate)
    }

    /**
     * The state of every live key at `eventTime`: its domain is exactly the
     * keys that have not expired, and each agrees with IsInBackOffSinceUpdate.
     */
    method AllKeysStateSinceUpdate(eventTime: int) returns (state: map<string, bool>)
      ensures state == Snapshot(perItemEntry, eventTime, maxDuration)
      ensures forall k :: k in state <==> k in perItemEntry && !HasExpired(eventTime, perItemEntry[k].lastUpdate, maxDuration)
      ensures forall k :: k in state ==> state[k] == IsInBackOffSinceUpdate(k, eventTime)
    {
      state := map[];
      var keys := perItemEntry.Keys;
      while keys != {}
        invariant keys <= perItemEntry.Keys
        invariant state == Snapshot(perItemEntry - keys, eventTime, maxDuration)
        decreases keys
      {
        var id :| id in keys;
        var entry := perItemEntry[id];
        if HasExpired(eventTime, entry.lastUpdate, maxDuration) {
        } else if eventTime - entry.lastUpdate < entry.backoff {
          state := state[id := true];
        } else if eventTime - entry.lastUpdate >= entry.backoff {
          state := state[id := false];
        }
        keys := keys - {id};
      }
    }
  }
}
