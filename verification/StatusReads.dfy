/** What clients of one API process see of a task: status reads go through the TTL cache while the
    lifecycle protocol keeps running behind it. */
module StatusReads {
  import opened Options
  import opened ResearchStore
  import opened Lifecycle
  import opened LifecycleSafety
  import LifecycleTheorems
  import TaskCache

  // `Evicts` stands for any lazy eviction or sweep of the cache.
  datatype Op = Proc(event: Event) | StatusRead(id: TaskId) | Evicts(ids: set<TaskId>)

  // `source[id]` is the position in the run of the store read that filled the cache entry.
  datatype View = View(st: State, cache: TaskCache.Entries, source: map<TaskId, nat>)

  predicate Hit(v: View, id: TaskId) {
    id in v.cache && id in v.source && TaskCache.Live(v.cache[id], v.st.now)
  }

  // `if task:` in the handler: an absent or empty record is not cached.
  function Fetched(v: View, id: TaskId): Option<Record> {
    var r := Lookup(v.st.tiers, id);
    if r == Some(map[]) then None else r
  }

  function Step(v: View, ttl: Time, op: Op, position: nat): View {
    match op
    case Proc(e) => v.(st := Apply(v.st, e))
    case StatusRead(id) =>
      if Hit(v, id) then v
      else
        var r := Fetched(v, id);
        if r.Some? then v.(cache := v.cache[id := TaskCache.Entry(r.value, v.st.now + ttl)],
                           source := v.source[id := position])
        else v.(cache := v.cache - {id})
    case Evicts(ids) => v.(cache := v.cache - ids)
  }

  function After(ttl: Time, ops: seq<Op>): View {
    if ops == [] then View(Initial(), map[], map[])
    else Step(After(ttl, ops[..|ops| - 1]), ttl, ops[|ops| - 1], |ops| - 1)
  }

  ghost predicate Legit(c: Config, ttl: Time, ops: seq<Op>) {
    ops == [] ||
    (var v := After(ttl, ops[..|ops| - 1]);
     var op := ops[|ops| - 1];
     && Legit(c, ttl, ops[..|ops| - 1])
     && (op.Proc? ==> Enabled(c, v.st, op.event) && Timely(c, v.st, op.event)))
  }

  // What the status read at position k answers, and which store read that answer comes from.
  function Answer(ttl: Time, ops: seq<Op>, k: nat): Option<Record>
    requires k < |ops| && ops[k].StatusRead?
  {
    var v, id := After(ttl, ops[..k]), ops[k].id;
    if Hit(v, id) then Some(v.cache[id].task) else Fetched(v, id)
  }

  function ReadFrom(ttl: Time, ops: seq<Op>, k: nat): nat
    requires k < |ops| && ops[k].StatusRead?
  {
    var v, id := After(ttl, ops[..k]), ops[k].id;
    if Hit(v, id) then v.source[id] else k
  }

  // ----- freshness -----

  // The cache entry is the store's record at the entry's source, and expires `ttl` after it.
  ghost predicate EntryOk(ttl: Time, ops: seq<Op>, id: TaskId) {
    var v := After(ttl, ops);
    id in v.cache && id in v.source ==>
      && v.source[id] < |ops|
      && var origin := After(ttl, ops[..v.source[id]]);
         Fetched(origin, id) == Some(v.cache[id].task) && v.cache[id].expires == origin.st.now + ttl
  }

  lemma {:induction false} EntriesOk(ttl: Time, ops: seq<Op>, id: TaskId)
    ensures EntryOk(ttl, ops, id)
  {
    if ops != [] {
      var shorter := ops[..|ops| - 1];
      EntriesOk(ttl, shorter, id);
      assert forall j :: 0 <= j <= |shorter| ==> ops[..j] == shorter[..j];
    }
  }

  /** Every status answer is the store's record as of less than `ttl` ago. */
  lemma StatusIsFresh(ttl: Time, ops: seq<Op>, k: nat)
    requires k < |ops| && ops[k].StatusRead?
    ensures ReadFrom(ttl, ops, k) <= k
    ensures Answer(ttl, ops, k) == Fetched(After(ttl, ops[..ReadFrom(ttl, ops, k)]), ops[k].id)
    ensures ReadFrom(ttl, ops, k) == k ||
            After(ttl, ops[..k]).st.now < After(ttl, ops[..ReadFrom(ttl, ops, k)]).st.now + ttl
  {
    EntriesOk(ttl, ops[..k], ops[k].id);
    assert forall j :: 0 <= j <= k ==> ops[..k][..j] == ops[..j];
  }

  // ----- monotonicity -----

  // Once the read at k has been answered, no cache entry for the task is older than its answer.
  lemma {:induction false} SourcesOnlyAdvance(ttl: Time, ops: seq<Op>, k: nat, n: nat)
    requires k < n <= |ops| && ops[k].StatusRead?
    ensures var v, id := After(ttl, ops[..n]), ops[k].id;
            id in v.cache && id in v.source ==> ReadFrom(ttl, ops, k) <= v.source[id]
    decreases n
  {
    assert ops[..n][..n - 1] == ops[..n - 1];
    StatusIsFresh(ttl, ops, k);
    if n > k + 1 {
      SourcesOnlyAdvance(ttl, ops, k, n - 1);
    }
  }

  /** One API process never goes back in time for a task: a later answer comes from the same store
      read as an earlier one, or from a later store read. */
  lemma StatusNeverGoesBack(ttl: Time, ops: seq<Op>, k: nat, n: nat)
    requires k < n < |ops| && ops[k].StatusRead? && ops[n].StatusRead? && ops[n].id == ops[k].id
    ensures ReadFrom(ttl, ops, k) <= ReadFrom(ttl, ops, n)
  {
    SourcesOnlyAdvance(ttl, ops, k, n);
    StatusIsFresh(ttl, ops, k);
  }

  // ----- together with terminal absorption -----

  function Events(ops: seq<Op>): seq<Event> {
    if ops == [] then []
    else Events(ops[..|ops| - 1]) + (if ops[|ops| - 1].Proc? then [ops[|ops| - 1].event] else [])
  }

  lemma {:induction false} BetweenIsRun(c: Config, ttl: Time, ops: seq<Op>, i: nat, j: nat)
    requires i <= j <= |ops| && Legit(c, ttl, ops[..j])
    ensures Legit(c, ttl, ops[..i])
    ensures Run(c, After(ttl, ops[..i]).st, Events(ops[i..j]))
    ensures Exec(After(ttl, ops[..i]).st, Events(ops[i..j])) == After(ttl, ops[..j]).st
    decreases j
  {
    if i < j {
      assert ops[..j][..j - 1] == ops[..j - 1] && ops[i..j][..j - 1 - i] == ops[i..j - 1];
      BetweenIsRun(c, ttl, ops, i, j - 1);
      var es := Events(ops[i..j - 1]);
      if ops[j - 1].Proc? {
        RunThen(c, After(ttl, ops[..i]).st, es, ops[j - 1].event);
        assert Events(ops[i..j]) == es + [ops[j - 1].event];
      } else {
        assert Events(ops[i..j]) == es + [] == es;
      }
    } else {
      assert ops[i..j] == [];
    }
  }

  lemma PrefixInv(c: Config, ttl: Time, ops: seq<Op>, i: nat)
    requires c.writeDelay < DRAIN_LOCK_TTL && i <= |ops| && Legit(c, ttl, ops)
    ensures Legit(c, ttl, ops[..i]) && Inv(c, After(ttl, ops[..i]).st)
  {
    assert ops[..|ops|] == ops && ops[..0] == [];
    BetweenIsRun(c, ttl, ops, i, |ops|);
    BetweenIsRun(c, ttl, ops, 0, i);
    InitialInv(c);
    RunInv(c, Initial(), Events(ops[0..i]));
  }

  /** Once a reader has been told `completed`, every later reader is given exactly that record; once
      told `failed`, that record or (after the 24 h expiry) nothing. */
  lemma FinishedAnswersStick(c: Config, ttl: Time, ops: seq<Op>, k: nat, n: nat)
    requires c.writeDelay < DRAIN_LOCK_TTL && Legit(c, ttl, ops)
    requires k < n < |ops| && ops[k].StatusRead? && ops[n].StatusRead? && ops[n].id == ops[k].id
    requires Answer(ttl, ops, k).Some?
    ensures HasStatus(Answer(ttl, ops, k).value, Completed) ==> Answer(ttl, ops, n) == Answer(ttl, ops, k)
    ensures HasStatus(Answer(ttl, ops, k).value, Failed) ==> Answer(ttl, ops, n) in {Answer(ttl, ops, k), None}
  {
    StatusNeverGoesBack(ttl, ops, k, n);
    StatusIsFresh(ttl, ops, k);
    StatusIsFresh(ttl, ops, n);
    var i, j, id := ReadFrom(ttl, ops, k), ReadFrom(ttl, ops, n), ops[k].id;
    PrefixInv(c, ttl, ops, i);
    PrefixInv(c, ttl, ops, j);
    BetweenIsRun(c, ttl, ops, i, j);
    StoreKeysIssued(After(ttl, ops[..i]).st);
    LifecycleTheorems.FinishedAbsorbs(c, After(ttl, ops[..i]).st, Events(ops[i..j]), id);
  }

  // Every cache entry has a source, so a hit is a live entry.
  lemma {:induction false} EntriesHaveSources(ttl: Time, ops: seq<Op>)
    ensures After(ttl, ops).cache.Keys <= After(ttl, ops).source.Keys
  {
    if ops != [] {
      EntriesHaveSources(ttl, ops[..|ops| - 1]);
    }
  }

  // ----- the handler -----

  // What a poll answers before the ownership check.
  function PollAnswer(v: View, id: TaskId): Option<Record> {
    if Hit(v, id) then Some(v.cache[id].task) else Fetched(v, id)
  }

  // A view with these cache entries, store tiers and time.
  predicate IsView(v: View, e: TaskCache.Entries, tiers: Tiers, now: Time) {
    v.cache == e && v.cache.Keys <= v.source.Keys && v.st.tiers == tiers && v.st.now == now
  }

  // In every such view, evicting `ids` and then reading the
  // task's status answers `seen` and leaves the entries `after`.
  ghost predicate IsPoll(ttl: Time, before: TaskCache.Entries, tiers: Tiers, now: Time, id: TaskId,
                         ids: set<TaskId>, seen: Option<Record>, after: TaskCache.Entries)
  {
    forall v: View, n: nat :: IsView(v, before, tiers, now) ==>
      && var evicted := Step(v, ttl, Evicts(ids), n);
         PollAnswer(evicted, id) == seen && Step(evicted, ttl, StatusRead(id), n + 1).cache == after
  }

  // What a poll sees, and the entries it leaves: a hit leaves the cache alone; a miss that finds nothing
  // drops the entry; another miss caches what it found, and may drop other entries.
  predicate IsHit(e: TaskCache.Entries, id: TaskId, now: Time) {
    id in e && TaskCache.Live(e[id], now)
  }

  function Seen(e: TaskCache.Entries, tiers: Tiers, id: TaskId, now: Time): Option<Record> {
    if IsHit(e, id, now) then Some(e[id].task)
    else if Lookup(tiers, id) == Some(map[]) then None else Lookup(tiers, id)
  }

  function Polled(e: TaskCache.Entries, tiers: Tiers, id: TaskId, now: Time, ttl: Time,
                  ids: set<TaskId>): TaskCache.Entries {
    var seen := Seen(e, tiers, id, now);
    if IsHit(e, id, now) then e
    else if seen.Some? then (e - ids)[id := TaskCache.Entry(seen.value, now + ttl)]
    else e - {id}
  }

  lemma PollIsRead(ttl: Time, e: TaskCache.Entries, tiers: Tiers, now: Time, id: TaskId, ids: set<TaskId>)
    requires IsHit(e, id, now) || Seen(e, tiers, id, now).None? ==> ids == {}
    ensures IsPoll(ttl, e, tiers, now, id, ids, Seen(e, tiers, id, now), Polled(e, tiers, id, now, ttl, ids))
  {
    assert e - {} == e;
  }

  lemma SetDrops(before: TaskCache.Entries, after: TaskCache.Entries, id: TaskId, entry: TaskCache.Entry)
    requires id in after && after[id] == entry
    requires forall k :: k in after && k != id ==> k in before && after[k] == before[k]
    ensures after == (before - (before.Keys - after.Keys))[id := entry]
  {
  }

  // Tenant isolation of status reads; the bootstrap key may read anything.
  predicate MayRead(r: Record, tenant: TenantId, bootstrap: bool) {
    bootstrap || OwnedBy(r, tenant)
  }

  /** Without the bootstrap key, a task's record is read by the tenant that created the task, and by no other. */
  lemma OnlyOwnerReads(c: Config, before: seq<Event>, id: TaskId, q: Request, later: seq<Event>, tenant: TenantId)
    requires c.writeDelay < DRAIN_LOCK_TTL && Run(c, Initial(), before + ([Create(id, q)] + later))
    ensures var s0, s := Exec(Initial(), before), Exec(Initial(), before + ([Create(id, q)] + later));
            && s0.admission.Some?
            && (Lookup(s.tiers, id).Some? ==>
                  && (MayRead(Lookup(s.tiers, id).value, tenant, false) <==> tenant == s0.admission.value.tenant)
                  && MayRead(Lookup(s.tiers, id).value, tenant, true))
  {
    LifecycleTheorems.RequestNeverChanges(c, before, id, q, later);
  }

  // The cached record on a hit, the store's on a miss, which is cached.
  method PollTask(cache: TaskCache.Cache, store: Store, id: TaskId, now: Time)
    returns (task: Option<Record>, ghost dropped: set<TaskId>)
    requires cache.Valid()
    modifies cache
    ensures cache.Valid()
    ensures Seen(old(cache.entries), store.Contents(), id, now) ==
            if task == Some(map[]) && !IsHit(old(cache.entries), id, now) then None else task
    ensures cache.entries == Polled(old(cache.entries), store.Contents(), id, now, cache.ttl, dropped)
    ensures IsHit(old(cache.entries), id, now) || Seen(old(cache.entries), store.Contents(), id, now).None? ==>
            dropped == {}
  {
    task := cache.Get(id, now);
    dropped := {};
    if task.None? {
      task := store.GetTask(id);
      if task.Some? && task.value != map[] {
        cache.Set(id, task.value, now);
        SetDrops(old(cache.entries), cache.entries, id, TaskCache.Entry(task.value, now + cache.ttl));
        dropped := old(cache.entries).Keys - cache.entries.Keys;
      }
    }
  }

  /** The read every status poll makes: the answer is the cached record on a hit and the store's on a
      miss, the ownership check runs either way, and only a miss that found a record is cached. */
  method GetResearchStatus(cache: TaskCache.Cache, store: Store, id: TaskId, now: Time, tenant: TenantId,
                           bootstrap: bool)
    returns (r: Option<Record>)
    requires cache.Valid()
    modifies cache
    ensures cache.Valid()
    ensures r.Some? ==> MayRead(r.value, tenant, bootstrap) && r.value != map[]
    ensures var e := old(cache.entries);
            var seen := if id in e && TaskCache.Live(e[id], now) then Some(e[id].task)
                else Lookup(store.Contents(), id);
            r == if seen.Some? && seen.value != map[] && MayRead(seen.value, tenant, bootstrap) then seen else None
    ensures var e, found := old(cache.entries), Lookup(store.Contents(), id);
            if id in e && TaskCache.Live(e[id], now) then cache.entries == e
            else if found.Some? && found.value != map[] then
              id in cache.entries && cache.entries[id] == TaskCache.Entry(found.value, now + cache.ttl)
            else cache.entries == e - {id}
    ensures exists ids, seen ::
              && IsPoll(cache.ttl, old(cache.entries), store.Contents(), now, id, ids, seen, cache.entries)
              && r == if seen.Some? && seen.value != map[] && MayRead(seen.value, tenant, bootstrap) then seen else None
  {
    var task; ghost var dropped;
    task, dropped := PollTask(cache, store, id, now);
    PollIsRead(cache.ttl, old(cache.entries), store.Contents(), now, id, dropped);
    if task.None? || task.value == map[] || !MayRead(task.value, tenant, bootstrap) {
      return None;
    }
    return task;
  }
}
