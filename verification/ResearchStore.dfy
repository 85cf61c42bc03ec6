/** The research-task store: a merging record store with a volatile tier (Redis) and a durable
    tier (one JSON file per completed task), plus the drain locks the supervisors claim with.
    The values below are what the lifecycle protocol steps are written with; the class at the end
    is the store itself, updated in place. */
module ResearchStore {
  import opened Options

  type TaskId = nat
  type TenantId = nat
  type Time = nat

  datatype Status = Running | WaitingForLlm | Completed | Failed

  // The keys of a task record.
  datatype Field =
    | TaskIdKey | TenantKey | QueryKey | ModeKey | LanguageKey | SchemaKey | LlmConfigKey
    | StatusKey | PhaseKey | IterationKey | CreatedKey | UpdatedKey
    | ErrorKey | ResultKey | EndpointKey

  // A JSON value: the status is interpreted, everything else is opaque data.
  datatype Value = Is(status: Status) | Data(datum: nat)

  type Record = map<Field, Value>

  datatype Tiers = Tiers(redis: map<TaskId, Record>, disk: map<TaskId, Record>)

  // Seconds a drain lock lives.
  const DRAIN_LOCK_TTL: Time := 120

  predicate HasStatus(r: Record, s: Status) {
    StatusKey in r && r[StatusKey] == Is(s)
  }

  // The statuses that occupy a tenant's concurrency slot.
  predicate IsActive(r: Record) {
    HasStatus(r, Running) || HasStatus(r, WaitingForLlm)
  }

  predicate OwnedBy(r: Record, tenant: TenantId) {
    TenantKey in r && r[TenantKey] == Data(tenant)
  }

  predicate Occupies(r: Record, tenant: TenantId) {
    IsActive(r) && OwnedBy(r, tenant)
  }

  // Volatile tier first, durable copy second.
  function Lookup(t: Tiers, id: TaskId): Option<Record> {
    if id in t.redis then Some(t.redis[id])
    else if id in t.disk then Some(t.disk[id])
    else None
  }

  lemma LookupSays(t: Tiers, id: TaskId)
    ensures id in t.redis ==> Lookup(t, id) == Some(t.redis[id])
    ensures id !in t.redis && id in t.disk ==> Lookup(t, id) == Some(t.disk[id])
    ensures id !in t.redis && id !in t.disk ==> Lookup(t, id) == None
  {
  }

  function WithTaskId(r: Record, id: TaskId): Record {
    if TaskIdKey in r then r else r[TaskIdKey := Data(id)]
  }

  // The record a `set_task` call writes, given the record its read returned.
  function Merge(existing: Option<Record>, id: TaskId, patch: Record): Record {
    WithTaskId((if existing.Some? then existing.value else map[]) + patch, id)
  }

  // The write half of `set_task`: Redis always, disk as soon as the record is completed.
  function Put(t: Tiers, id: TaskId, merged: Record): Tiers {
    Tiers(t.redis[id := merged],
          if HasStatus(merged, Completed) then t.disk[id := merged] else t.disk)
  }

  lemma PutSays(t: Tiers, id: TaskId, merged: Record)
    ensures Put(t, id, merged).redis == t.redis[id := merged]
    ensures StatusKey in merged && merged[StatusKey] == Is(Completed) ==> Put(t, id, merged).disk == t.disk[id := merged]
    ensures !(StatusKey in merged && merged[StatusKey] == Is(Completed)) ==> Put(t, id, merged).disk == t.disk
  {
  }

  // Expiry of the volatile copy.
  function Evicted(t: Tiers, id: TaskId): Tiers {
    t.(redis := t.redis - {id})
  }

  predicate LockFree(locks: map<TaskId, Time>, id: TaskId, now: Time) {
    id !in locks || locks[id] <= now
  }

  function OccupiedBy(t: Tiers, tenant: TenantId): set<TaskId> {
    set id | id in t.redis && Occupies(t.redis[id], tenant)
  }

  function WaitingTasks(t: Tiers): set<TaskId> {
    set id | id in t.redis && HasStatus(t.redis[id], WaitingForLlm)
  }

  /** Every field of the patch takes effect and every field it does not mention survives. */
  lemma MergeKeepsUnpatchedFields(existing: Record, id: TaskId, patch: Record)
    ensures var m := Merge(Some(existing), id, patch);
            && (forall f :: f in patch ==> f in m && m[f] == patch[f])
            && (forall f :: f in existing && f !in patch ==> f in m && m[f] == existing[f])
            && TaskIdKey in m
            && m.Keys == existing.Keys + patch.Keys + {TaskIdKey}
  {
  }

  /** The store as an object: `redis`, the files on disk, and the `drainlock:` keys. */
  class Store {
    var redis: map<TaskId, Record>
    var disk: map<TaskId, Record>
    var drainLocks: map<TaskId, Time>

    ghost function Contents(): Tiers
      reads this
    {
      Tiers(redis, disk)
    }

    constructor ()
      ensures Contents() == Tiers(map[], map[]) && drainLocks == map[]
    {
      redis, disk, drainLocks := map[], map[], map[];
    }

    method GetTask(id: TaskId) returns (r: Option<Record>)
      ensures r == Lookup(Contents(), id)
    {
      if id in redis {
        return Some(redis[id]);
      }
      if id in disk {
        return Some(disk[id]);
      }
      return None;
    }

    method SetTask(id: TaskId, data: Record)
      modifies this`redis, this`disk
      ensures Contents() == Put(old(Contents()), id, Merge(Lookup(old(Contents()), id), id, data))
      ensures Lookup(Contents(), id) == Some(Merge(Lookup(old(Contents()), id), id, data))
      ensures forall other :: other != id ==> Lookup(Contents(), other) == Lookup(old(Contents()), other)
    {
      var found := GetTask(id);
      var merged: Record := if found.Some? then found.value else map[];
      merged := merged + data;
      if TaskIdKey !in merged {
        merged := merged[TaskIdKey := Data(id)];
      }
      redis := redis[id := merged];
      if HasStatus(merged, Completed) {
        disk := disk[id := merged];
      }
    }

    // Single-flight guard of the drain pass: SET key NX EX ttl.
    method TryClaimDrain(id: TaskId, now: Time) returns (claimed: bool)
      modifies this`drainLocks
      ensures claimed <==> LockFree(old(drainLocks), id, now)
      ensures drainLocks == if claimed then old(drainLocks)[id := now + DRAIN_LOCK_TTL] else old(drainLocks)
      ensures forall later :: now <= later < now + DRAIN_LOCK_TTL && claimed ==> !LockFree(drainLocks, id, later)
    {
      claimed := id !in drainLocks || drainLocks[id] <= now;
      if claimed {
        drainLocks := drainLocks[id := now + DRAIN_LOCK_TTL];
      }
    }

    /** The number of the tenant's tasks that hold a concurrency slot. */
    method GetConcurrentTaskCount(tenant: TenantId) returns (count: nat)
      ensures count == |OccupiedBy(Contents(), tenant)|
    {
      count := 0;
      var keys := redis.Keys;
      ghost var counted: set<TaskId> := {};
      while keys != {}
        invariant keys <= redis.Keys
        invariant counted == OccupiedBy(Contents(), tenant) - keys
        invariant count == |counted|
        decreases keys
      {
        var k :| k in keys;
        if Occupies(redis[k], tenant) {
          count := count + 1;
          counted := counted + {k};
        }
        keys := keys - {k};
      }
      assert counted == OccupiedBy(Contents(), tenant);
    }

    /** All parked tasks, each exactly once, in scan order. */
    method GetTasksWaitingForLlm() returns (out: seq<TaskId>)
      ensures forall id :: id in out <==> id in WaitingTasks(Contents())
      ensures forall i, j :: 0 <= i < j < |out| ==> out[i] != out[j]
    {
      out := [];
      var keys := redis.Keys;
      while keys != {}
        invariant keys <= redis.Keys
        invariant forall id :: id in out <==> id in WaitingTasks(Contents()) && id !in keys
        invariant forall i, j :: 0 <= i < j < |out| ==> out[i] != out[j]
        decreases keys
      {
        var k :| k in keys;
        if HasStatus(redis[k], WaitingForLlm) {
          out := out + [k];
        }
        keys := keys - {k};
      }
    }
  }
}
