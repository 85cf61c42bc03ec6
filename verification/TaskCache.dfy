/** The API's in-memory TTL cache of task payloads: lazy eviction on a hit, a bounded sweep on insert. */
module TaskCache {
  import opened Options
  import opened ResearchStore

  const MAX_ENTRIES: nat := 512

  datatype Entry = Entry(task: Record, expires: Time)

  type Entries = map<TaskId, Entry>

  predicate Live(e: Entry, now: Time) {
    now < e.expires
  }

  function LiveKeys(m: Entries, now: Time): set<TaskId> {
    set id | id in m && Live(m[id], now)
  }

  /** `to` is what a sweep of `from` may leave: only unexpired entries, unchanged; as many as fit below
      the ceiling; and any unexpired entry dropped expires no later than every entry kept. */
  ghost predicate IsSwept(from: Entries, to: Entries, now: Time) {
    && to.Keys <= LiveKeys(from, now)
    && (forall id :: id in to ==> to[id] == from[id])
    && |to| == (if |LiveKeys(from, now)| < MAX_ENTRIES then |LiveKeys(from, now)| else MAX_ENTRIES - 1)
    && (forall gone, kept :: gone in LiveKeys(from, now) && gone !in to && kept in to ==>
        from[gone].expires <= from[kept].expires)
  }

  // Every entry was made by now, which holds as long as the clock does not go back.
  predicate MadeBy(m: Entries, now: Time, ttl: Time) {
    forall id :: id in m ==> m[id].expires <= now + ttl
  }

  // No unexpired entry is evicted before one that expires sooner; `id` was overwritten, not evicted.
  ghost predicate EvictedInOrder(from: Entries, to: Entries, id: TaskId, now: Time) {
    forall gone, kept :: gone in LiveKeys(from, now) && gone != id && gone !in to && kept in to ==>
      from[gone].expires <= to[kept].expires
  }

  // A key whose entry expires first.
  method FindOldest(m: Entries) returns (oldest: TaskId)
    requires m != map[]
    ensures oldest in m && forall k :: k in m ==> m[oldest].expires <= m[k].expires
  {
    var rest := m.Keys;
    oldest :| oldest in m;
    while rest != {}
      invariant rest <= m.Keys && oldest in m
      invariant forall k :: k in m && k !in rest ==> m[oldest].expires <= m[k].expires
      decreases rest
    {
      var k :| k in rest;
      if m[k].expires < m[oldest].expires {
        oldest := k;
      }
      rest := rest - {k};
    }
  }

  class Cache {
    const ttl: Time
    var entries: Entries

    ghost predicate Valid()
      reads this
    {
      |entries| <= MAX_ENTRIES
    }

    constructor (ttl: Time)
      ensures Valid() && entries == map[] && this.ttl == ttl
    {
      this.ttl, entries := ttl, map[];
    }

    method Get(id: TaskId, now: Time) returns (r: Option<Record>)
      requires Valid()
      modifies this`entries
      ensures Valid()
      ensures r == if id in old(entries) && Live(old(entries)[id], now) then Some(old(entries)[id].task) else None
      ensures entries == if r.Some? then old(entries) else old(entries) - {id}
    {
      if id !in entries {
        assert entries == entries - {id};
        return None;
      }
      var e := entries[id];
      if now >= e.expires {
        Fewer(entries, {id});
        entries := entries - {id};
        return None;
      }
      return Some(e.task);
    }

    /** After any insert the key is present with a full TTL and the ceiling holds; below the ceiling
        nothing else is touched, at the ceiling the rest is a sweep. No unexpired entry that is evicted
        expires later than any entry left, the inserted one included. */
    method Set(id: TaskId, task: Record, now: Time)
      requires Valid()
      modifies this`entries
      ensures Valid() && id in entries && entries[id] == Entry(task, now + ttl)
      ensures |old(entries)| < MAX_ENTRIES ==> entries == old(entries)[id := Entry(task, now + ttl)]
      ensures |old(entries)| >= MAX_ENTRIES ==>
                exists kept :: IsSwept(old(entries), kept, now) && entries == kept[id := Entry(task, now + ttl)]
      ensures MadeBy(old(entries), now, ttl) ==>
                MadeBy(entries, now, ttl) && EvictedInOrder(old(entries), entries, id, now)
    {
      if |entries| >= MAX_ENTRIES {
        Sweep(now);
      }
      OneMore(entries, id, Entry(task, now + ttl));
      entries := entries[id := Entry(task, now + ttl)];
    }

    method Sweep(now: Time)
      modifies this`entries
      ensures IsSwept(old(entries), entries, now) && |entries| < MAX_ENTRIES
    {
      DropExpired(now);
      ghost var live := entries;
      Sizes(live);
      assert entries.Keys == LiveKeys(old(entries), now);
      var overflow := |entries| - MAX_ENTRIES + 1;
      while overflow > 0
        invariant entries.Keys <= live.Keys && |entries| - MAX_ENTRIES + 1 == overflow
        invariant overflow >= 0 || entries == live
        invariant forall id :: id in entries ==> entries[id] == live[id]
        invariant forall gone, kept :: gone in live && gone !in entries && kept in entries ==>
                  live[gone].expires <= live[kept].expires
      {
        var oldest := FindOldest(entries);
        Fewer(entries, {oldest});
        entries := entries - {oldest};
        overflow := overflow - 1;
      }
      Sizes(entries);
    }

    method DropExpired(now: Time)
      modifies this`entries
      ensures entries == map id | id in old(entries) && Live(old(entries)[id], now) :: old(entries)[id]
    {
      var rest := entries.Keys;
      while rest != {}
        invariant rest <= old(entries).Keys
        invariant entries == map id | id in old(entries)
                  && (id in rest || Live(old(entries)[id], now)) :: old(entries)[id]
        decreases rest
      {
        var k :| k in rest;
        if now >= entries[k].expires {
          entries := entries - {k};
        }
        rest := rest - {k};
      }
    }
  }

  lemma Sizes(m: Entries)
    ensures |m| == |m.Keys|
  {
  }

  lemma Fewer(m: Entries, ks: set<TaskId>)
    ensures |m - ks| == |m| - |m.Keys * ks|
  {
    assert (m - ks).Keys == m.Keys - ks && |m.Keys - ks| == |m.Keys| - |m.Keys * ks|;
  }

  lemma OneMore(m: Entries, id: TaskId, e: Entry)
    ensures |m[id := e]| <= |m| + 1
  {
    assert m[id := e].Keys == m.Keys + {id};
  }
}
