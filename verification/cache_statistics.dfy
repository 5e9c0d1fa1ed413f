/** The counters a cache keeps about itself
    (livre/core/cache/CacheStatistics.h): a record whose mutators each
    touch exactly one field. The `size_t` counters wrap modulo 2^64. */
module CacheStatistics {
  import opened CTypes

  /** The fields of `CacheStatistics` that the header defines operations
      on; `queueSize` is fixed at construction. */
  datatype Statistics = Statistics(
    name: string,
    usedMemBytes: SizeT,
    maxMemBytes: SizeT,
    objCount: SizeT,
    cacheHit: SizeT,
    cacheMiss: SizeT,
    queueSize: SizeT)

  /** `++` on a `size_t`. */
  function Increment(x: SizeT): (r: SizeT)
    ensures x < SizeLimit - 1 ==> r == x + 1
    ensures x == SizeLimit - 1 ==> r == 0
  {
    ToSizeT(x + 1)
  }

  /** `getBlockCount`: the number of objects in the cache, read without
      change. */
  function BlockCount(s: Statistics): (r: SizeT)
    ensures r == s.objCount
  {
    s.objCount
  }

  /** `getUsedMemory`: the bytes the cache uses, read without change. */
  function UsedMemory(s: Statistics): (r: SizeT)
    ensures r == s.usedMemBytes
  {
    s.usedMemBytes
  }

  /** `_hit`: one more hit, nothing else changes. */
  function Hit(s: Statistics): (r: Statistics)
    ensures r.cacheHit == Increment(s.cacheHit)
    ensures r.(cacheHit := s.cacheHit) == s
  {
    s.(cacheHit := Increment(s.cacheHit))
  }

  /** `_miss`: one more miss, nothing else changes. */
  function Miss(s: Statistics): (r: Statistics)
    ensures r.cacheMiss == Increment(s.cacheMiss)
    ensures r.(cacheMiss := s.cacheMiss) == s
  {
    s.(cacheMiss := Increment(s.cacheMiss))
  }

  /** `setName`: only the name changes. */
  function SetName(s: Statistics, name: string): (r: Statistics)
    ensures r.name == name
    ensures r.(name := s.name) == s
  {
    s.(name := name)
  }

  /** `setMaximumMemory`: only the memory limit changes. */
  function SetMaximumMemory(s: Statistics, maxMemBytes: SizeT): (r: Statistics)
    ensures r.maxMemBytes == maxMemBytes
    ensures r.(maxMemBytes := s.maxMemBytes) == s
  {
    s.(maxMemBytes := maxMemBytes)
  }

  /** The getters read fields no mutator of the header writes: a hit, a
      miss, a rename or a new limit leaves both readings as they were. */
  lemma GettersUnaffected(s: Statistics, name: string, maxMemBytes: SizeT)
    ensures BlockCount(Hit(s)) == BlockCount(s) && UsedMemory(Hit(s)) == UsedMemory(s)
    ensures BlockCount(Miss(s)) == BlockCount(s) && UsedMemory(Miss(s)) == UsedMemory(s)
    ensures BlockCount(SetName(s, name)) == BlockCount(s)
            && UsedMemory(SetName(s, name)) == UsedMemory(s)
    ensures BlockCount(SetMaximumMemory(s, maxMemBytes)) == BlockCount(s)
            && UsedMemory(SetMaximumMemory(s, maxMemBytes)) == UsedMemory(s)
  {
  }

  /** One call of a mutator. */
  datatype Event = HitEvent | MissEvent | NameEvent(name: string) | LimitEvent(maxMemBytes: SizeT)

  function Apply(s: Statistics, e: Event): Statistics {
    match e
    case HitEvent => Hit(s)
    case MissEvent => Miss(s)
    case NameEvent(name) => SetName(s, name)
    case LimitEvent(maxMemBytes) => SetMaximumMemory(s, maxMemBytes)
  }

  /** The statistics after the events, in order. */
  function Replay(s: Statistics, events: seq<Event>): Statistics {
    if |events| == 0 then s
    else Apply(Replay(s, events[..|events| - 1]), events[|events| - 1])
  }

  /** The name the last rename among `events` set, or `name` if none. */
  function LastName(events: seq<Event>, name: string): string {
    if |events| == 0 then name
    else if events[|events| - 1].NameEvent? then events[|events| - 1].name
    else LastName(events[..|events| - 1], name)
  }

  /** The limit the last `setMaximumMemory` among `events` set, or
      `maxMemBytes` if none. */
  function LastLimit(events: seq<Event>, maxMemBytes: SizeT): SizeT {
    if |events| == 0 then maxMemBytes
    else if events[|events| - 1].LimitEvent? then events[|events| - 1].maxMemBytes
    else LastLimit(events[..|events| - 1], maxMemBytes)
  }

  /** Any sequence of calls: the hit and miss counters advance by the number
      of hits and misses, modulo 2^64. */
  lemma {:induction false} ReplayCounters(s: Statistics, events: seq<Event>)
    ensures Replay(s, events).cacheHit == ToSizeT(s.cacheHit + multiset(events)[HitEvent])
    ensures Replay(s, events).cacheMiss == ToSizeT(s.cacheMiss + multiset(events)[MissEvent])
  {
    if |events| > 0 {
      var before := events[..|events| - 1];
      var last := events[|events| - 1];
      ReplayCounters(s, before);
      assert events == before + [last];
      assert multiset(events) == multiset(before) + multiset{last};
      ModuloStep(s.cacheHit + multiset(before)[HitEvent]);
      ModuloStep(s.cacheMiss + multiset(before)[MissEvent]);
    }
  }

  /** Any sequence of calls: the name and the limit are the last ones set,
      and the memory use, object count and queue size are untouched. */
  lemma {:induction false} ReplayFields(s: Statistics, events: seq<Event>)
    ensures var r := Replay(s, events);
            && r.name == LastName(events, s.name)
            && r.maxMemBytes == LastLimit(events, s.maxMemBytes)
            && r.usedMemBytes == s.usedMemBytes
            && r.objCount == s.objCount
            && r.queueSize == s.queueSize
  {
    if |events| > 0 {
      ReplayFields(s, events[..|events| - 1]);
    }
  }

  /** Incrementing a wrapped value is wrapping the incremented value. */
  lemma ModuloStep(x: nat)
    ensures Increment(ToSizeT(x)) == ToSizeT(x + 1)
  {
  }

  /** Hits and misses commute with everything: replaying the events in
      another order gives the same counters. */
  lemma CountersOrderIndependent(s: Statistics, events: seq<Event>, shuffled: seq<Event>)
    requires multiset(events) == multiset(shuffled)
    ensures Replay(s, events).cacheHit == Replay(s, shuffled).cacheHit
    ensures Replay(s, events).cacheMiss == Replay(s, shuffled).cacheMiss
  {
    ReplayCounters(s, events);
    ReplayCounters(s, shuffled);
  }
}
