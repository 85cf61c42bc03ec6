/** The promises of the research-task lifecycle, for every run of any number of workers and
    supervisors that respects the timing assumptions. */
module LifecycleTheorems {
  import opened Options
  import opened Sets
  import opened ResearchStore
  import opened Lifecycle
  import opened LifecycleSafety

  lemma ReachableInv(c: Config, es: seq<Event>)
    requires c.writeDelay < DRAIN_LOCK_TTL && Run(c, Initial(), es)
    ensures Inv(c, Exec(Initial(), es))
  {
    InitialInv(c);
    RunInv(c, Initial(), es);
  }

  // ----- single flight, and no task is lost -----

  /** At most one process is responsible for a task at any time. */
  lemma SingleFlight(c: Config, es: seq<Event>, p: Pid, q: Pid)
    requires c.writeDelay < DRAIN_LOCK_TTL && Run(c, Initial(), es)
    requires var s := Exec(Initial(), es); p in s.owners && q in s.owners && s.owners[p].task == s.owners[q].task
    ensures p == q
  {
    ReachableInv(c, es);
  }

  /** Running tasks have an owner; parked tasks have none, except a supervisor between its claim and
      its `running` write; finished tasks have none. */
  lemma NoTaskLost(c: Config, es: seq<Event>, id: TaskId)
    requires c.writeDelay < DRAIN_LOCK_TTL && Run(c, Initial(), es)
    ensures var s := Exec(Initial(), es);
            && (StatusIs(s, id, Running) ==>
                  exists p :: p in s.owners && s.owners[p].task == id && !AwaitsRunningWrite(s.owners[p]))
            && (StatusIs(s, id, WaitingForLlm) ==>
                  forall p :: p in s.owners && s.owners[p].task == id ==> AwaitsRunningWrite(s.owners[p]))
            && (HasOwner(s, id) ==> StatusIs(s, id, Running) || StatusIs(s, id, WaitingForLlm))
  {
    ReachableInv(c, es);
    var s := Exec(Initial(), es);
    assert forall p :: p in s.owners ==> OwnerOk(c, s, s.owners[p]);
    if StatusIs(s, id, Running) {
      var p :| p in s.owners && s.owners[p].task == id;
    }
  }

  // ----- finished statuses absorb -----

  ghost predicate ReadsAs(s: State, id: TaskId, st: Status) {
    Lookup(s.tiers, id).Some? && HasStatus(Lookup(s.tiers, id).value, st)
  }

  lemma FinishedHasNoOwner(c: Config, s: State, id: TaskId)
    requires OwnersOk(c, s) && StoreOk(s)
    requires ReadsAs(s, id, Completed) || ReadsAs(s, id, Failed) || Lookup(s.tiers, id).None?
    ensures forall p :: p in s.owners ==> s.owners[p].task != id
  {
    forall p | p in s.owners ensures s.owners[p].task != id {
      assert OwnerOk(c, s, s.owners[p]);
    }
  }

  // Only the task's own creation, its owner's write and its eviction touch a task's record.
  lemma UntouchedRecord(c: Config, s: State, e: Event, id: TaskId)
    requires Enabled(c, s, e) && id in s.history && e != Evict(id)
    requires forall p :: p in s.owners ==> s.owners[p].task != id
    ensures id in Apply(s, e).history && Lookup(Apply(s, e).tiers, id) == Lookup(s.tiers, id)
  {
  }

  lemma FinishedStep(c: Config, s: State, e: Event, id: TaskId)
    requires OwnersOk(c, s) && StoreOk(s) && Enabled(c, s, e) && id in s.history
    requires ReadsAs(s, id, Completed) || ReadsAs(s, id, Failed) || Lookup(s.tiers, id).None?
    ensures id in Apply(s, e).history
    ensures ReadsAs(s, id, Completed) ==> Lookup(Apply(s, e).tiers, id) == Lookup(s.tiers, id)
    ensures Lookup(Apply(s, e).tiers, id) in {Lookup(s.tiers, id), None}
  {
    FinishedHasNoOwner(c, s, id);
    if e == Evict(id) {
      CompletedReadsDurably(s, id);
    } else {
      UntouchedRecord(c, s, e, id);
    }
  }

  // The durable copy of a completed task is the record the volatile tier holds.
  lemma CompletedReadsDurably(s: State, id: TaskId)
    requires StoreOk(s)
    ensures ReadsAs(s, id, Completed) ==> id in s.tiers.disk && Lookup(s.tiers, id) == Some(s.tiers.disk[id])
    ensures ReadsAs(s, id, Failed) ==> id !in s.tiers.disk
  {
    assert id in s.tiers.redis ==> RecordOk(s, id, s.tiers.redis[id]);
    assert id in s.tiers.disk ==> RecordOk(s, id, s.tiers.disk[id]);
  }

  /** `completed` never changes again, record and all; `failed` can only disappear (24 h expiry);
      and a task that has disappeared stays gone. */
  lemma {:induction false} FinishedAbsorbs(c: Config, s: State, es: seq<Event>, id: TaskId)
    requires Inv(c, s) && Run(c, s, es) && id in s.history
    ensures ReadsAs(s, id, Completed) ==> Lookup(Exec(s, es).tiers, id) == Lookup(s.tiers, id)
    ensures ReadsAs(s, id, Failed) ==> Lookup(Exec(s, es).tiers, id) in {Lookup(s.tiers, id), None}
    ensures Lookup(s.tiers, id).None? ==> Lookup(Exec(s, es).tiers, id).None?
    decreases |es|
  {
    if es != [] && (ReadsAs(s, id, Completed) || ReadsAs(s, id, Failed) || Lookup(s.tiers, id).None?) {
      FinishedStep(c, s, es[0], id);
      StepInv(c, s, es[0]);
      FinishedAbsorbs(c, Apply(s, es[0]), es[1..], id);
    }
  }

  /** A completed record reads back identically after the volatile tier has dropped it. */
  lemma EvictionKeepsCompleted(c: Config, es: seq<Event>, id: TaskId)
    requires c.writeDelay < DRAIN_LOCK_TTL && Run(c, Initial(), es)
    requires ReadsAs(Exec(Initial(), es), id, Completed)
    ensures Lookup(Evicted(Exec(Initial(), es).tiers, id), id) == Lookup(Exec(Initial(), es).tiers, id)
  {
    ReachableInv(c, es);
    CompletedReadsDurably(Exec(Initial(), es), id);
  }

  // ----- tenant cap -----

  /** No tenant ever holds more slots than its cap, although the admission count is taken record by
      record while other processes keep writing. */
  lemma TenantCap(c: Config, es: seq<Event>, tenant: TenantId)
    requires c.writeDelay < DRAIN_LOCK_TTL && Run(c, Initial(), es)
    ensures |OccupiedBy(Exec(Initial(), es).tiers, tenant)| <= c.cap(tenant)
  {
    ReachableInv(c, es);
  }

  /** Only a task creation can take a slot: parking, draining, re-parking and finishing never do. */
  lemma OnlyCreateTakesSlots(c: Config, s: State, e: Event, tenant: TenantId)
    requires Inv(c, s) && Enabled(c, s, e) && !e.Create?
    ensures OccupiedBy(Apply(s, e).tiers, tenant) <= OccupiedBy(s.tiers, tenant)
  {
    if e.CommitWrite? {
      CommitSlots(c, s, e.pid);
    }
  }

  /** Who holds a slot: the tenant's own tasks that are running or parked, and no others. */
  lemma SlotsAreUnfinishedTasks(s: State, tenant: TenantId, id: TaskId)
    ensures id in OccupiedBy(s.tiers, tenant) <==>
            && id in s.tiers.redis
            && var r := s.tiers.redis[id];
               && TenantKey in r && r[TenantKey] == Data(tenant)
               && StatusKey in r && (r[StatusKey] == Is(Running) || r[StatusKey] == Is(WaitingForLlm))
  {
  }

  // ----- merge writes lose nothing -----

  // The patch one event writes for a task, if any.
  function Writes(s: State, e: Event, id: TaskId): seq<Record> {
    match e
    case Create(i, q) =>
      if i == id && s.admission.Some? then [CreationRecord(id, s.admission.value.tenant, q, s.now)] else []
    case CommitWrite(p) =>
      if p in s.owners && s.owners[p].stage.Writing? && s.owners[p].task == id then [s.owners[p].stage.patch] else []
    case _ => []
  }

  // The patches written for a task during a run, oldest first.
  function WrittenPatches(s: State, es: seq<Event>, id: TaskId): seq<Record>
    decreases |es|
  {
    if es == [] then [] else Writes(s, es[0], id) + WrittenPatches(Apply(s, es[0]), es[1..], id)
  }

  function HistoryOf(s: State, id: TaskId): seq<Record> {
    if id in s.history then s.history[id] else []
  }

  lemma HistoryStep(c: Config, s: State, e: Event, id: TaskId)
    requires Enabled(c, s, e)
    ensures HistoryOf(Apply(s, e), id) == HistoryOf(s, id) + Writes(s, e, id)
  {
  }

  lemma {:induction false} HistoryIsWhatWasWritten(c: Config, s: State, es: seq<Event>, id: TaskId)
    requires Legal(c, s, es)
    ensures HistoryOf(Exec(s, es), id) == HistoryOf(s, id) + WrittenPatches(s, es, id)
    decreases |es|
  {
    if es != [] {
      HistoryStep(c, s, es[0], id);
      HistoryIsWhatWasWritten(c, Apply(s, es[0]), es[1..], id);
      JoinAssociates(HistoryOf(s, id), Writes(s, es[0], id), WrittenPatches(Apply(s, es[0]), es[1..], id));
    }
  }

  /** With reads and writes of `set_task` as separate steps of racing processes, the stored record is
      still the fold of every patch ever written for the task, in order. */
  lemma MergeLosesNothing(c: Config, es: seq<Event>, id: TaskId)
    requires c.writeDelay < DRAIN_LOCK_TTL && Run(c, Initial(), es)
    requires Lookup(Exec(Initial(), es).tiers, id).Some?
    ensures Lookup(Exec(Initial(), es).tiers, id).value == Fold(id, WrittenPatches(Initial(), es, id))
  {
    ReachableInv(c, es);
    var s := Exec(Initial(), es);
    assert RecordOk(s, id, Lookup(s.tiers, id).value);
    HistoryIsWhatWasWritten(c, Initial(), es, id);
    assert HistoryOf(Initial(), id) + WrittenPatches(Initial(), es, id) == WrittenPatches(Initial(), es, id);
  }

  lemma {:induction false} FoldKeepsIdentity(id: TaskId, h: seq<Record>, f: Field)
    requires h != [] && f in IDENTITY && IDENTITY <= h[0].Keys
    requires forall k :: 0 < k < |h| ==> IsUpdate(h[k])
    ensures f in Fold(id, h) && Fold(id, h)[f] == h[0][f]
  {
    if |h| == 1 {
      assert h[..0] == [];
    } else {
      FoldKeepsIdentity(id, h[..|h| - 1], f);
    }
  }

  /** The fields set at creation (tenant, query, mode, LLM config, created_at, ...) never change. */
  lemma IdentityNeverChanges(c: Config, es: seq<Event>, id: TaskId, f: Field)
    requires c.writeDelay < DRAIN_LOCK_TTL && Run(c, Initial(), es)
    requires Lookup(Exec(Initial(), es).tiers, id).Some? && f in IDENTITY
    ensures var written := WrittenPatches(Initial(), es, id);
            && written != [] && f in written[0]
            && f in Lookup(Exec(Initial(), es).tiers, id).value
            && Lookup(Exec(Initial(), es).tiers, id).value[f] == written[0][f]
  {
    ReachableInv(c, es);
    var s := Exec(Initial(), es);
    assert RecordOk(s, id, Lookup(s.tiers, id).value);
    HistoryIsWhatWasWritten(c, Initial(), es, id);
    FoldKeepsIdentity(id, s.history[id], f);
  }

  lemma CreationCarriesRequest(c: Config, s: State, id: TaskId, q: Request)
    requires Enabled(c, s, Create(id, q))
    ensures var h := Apply(s, Create(id, q)).history[id];
            && |h| == 1 && CarriesRequest(h[0], id, s.admission.value.tenant, q, s.now)
            && StatusKey in h[0] && h[0][StatusKey] == Is(Running)
  {
  }

  lemma {:induction false} FirstPatchKept(c: Config, s: State, es: seq<Event>, id: TaskId)
    requires Legal(c, s, es) && HistoryOf(s, id) != []
    ensures HistoryOf(Exec(s, es), id) != [] && HistoryOf(Exec(s, es), id)[0] == HistoryOf(s, id)[0]
    decreases |es|
  {
    if es != [] {
      HistoryStep(c, s, es[0], id);
      FirstPatchKept(c, Apply(s, es[0]), es[1..], id);
    }
  }

  lemma {:induction false} InTwoParts(c: Config, s: State, a: seq<Event>, b: seq<Event>)
    requires Legal(c, s, a + b)
    ensures Legal(c, s, a) && Legal(c, Exec(s, a), b) && Exec(s, a + b) == Exec(Exec(s, a), b)
    decreases |a|
  {
    if a == [] {
      assert a + b == b;
    } else {
      assert (a + b)[0] == a[0] && (a + b)[1..] == a[1..] + b;
      InTwoParts(c, Apply(s, a[0]), a[1..], b);
    }
  }

  /** As long as a task has a record, the record carries the request the task was created with. */
  lemma RequestNeverChanges(c: Config, before: seq<Event>, id: TaskId, q: Request, later: seq<Event>)
    requires c.writeDelay < DRAIN_LOCK_TTL && Run(c, Initial(), before + ([Create(id, q)] + later))
    ensures var s0, s := Exec(Initial(), before), Exec(Initial(), before + ([Create(id, q)] + later));
            && s0.admission.Some?
            && (Lookup(s.tiers, id).Some? ==>
                  CarriesRequest(Lookup(s.tiers, id).value, id, s0.admission.value.tenant, q, s0.now))
  {
    var rest := [Create(id, q)] + later;
    var es, s0 := before + rest, Exec(Initial(), before);
    InTwoParts(c, Initial(), before, rest);
    assert rest[0] == Create(id, q) && rest[1..] == later;
    CreationCarriesRequest(c, s0, id, q);
    FirstPatchKept(c, Apply(s0, Create(id, q)), later, id);
    var s := Exec(Initial(), es);
    if Lookup(s.tiers, id).Some? {
      HistoryIsWhatWasWritten(c, Initial(), es, id);
      assert HistoryOf(Initial(), id) + WrittenPatches(Initial(), es, id) == WrittenPatches(Initial(), es, id);
      forall f | f in IDENTITY
        ensures f in Lookup(s.tiers, id).value && Lookup(s.tiers, id).value[f] == HistoryOf(s, id)[0][f]
      {
        IdentityNeverChanges(c, es, id, f);
      }
    }
  }

  // ----- the timing bound is exact -----

  // Timely, but for the age of a claim, which stays below `bound` instead.
  ghost predicate TimelyWithin(c: Config, bound: Time, s: State, e: Event) {
    if e.Claim? then s.now < e.readAt + bound else Timely(c, s, e)
  }

  ghost predicate AllWithin(c: Config, bound: Time, s: State, es: seq<Event>)
    decreases |es|
  {
    es == [] || (TimelyWithin(c, bound, s, es[0]) && AllWithin(c, bound, Apply(s, es[0]), es[1..]))
  }

  lemma {:induction false} WithinThen(c: Config, bound: Time, s: State, es: seq<Event>, e: Event)
    requires Legal(c, s, es) && AllWithin(c, bound, s, es) && TimelyWithin(c, bound, Exec(s, es), e)
    ensures AllWithin(c, bound, s, es + [e])
    decreases |es|
  {
    if es == [] {
      assert es + [e] == [e] && [e][1..] == [];
    } else {
      assert (es + [e])[0] == es[0] && (es + [e])[1..] == es[1..] + [e];
      WithinThen(c, bound, Apply(s, es[0]), es[1..], e);
    }
  }

  lemma {:induction false} WithinIsTimely(c: Config, bound: Time, s: State, es: seq<Event>)
    requires c.writeDelay < DRAIN_LOCK_TTL && AllWithin(c, bound, s, es) && bound + c.writeDelay <= DRAIN_LOCK_TTL
    ensures AllTimely(c, s, es)
    decreases |es|
  {
    if es != [] {
      WithinIsTimely(c, bound, Apply(s, es[0]), es[1..]);
    }
  }

  // A run from the initial state to `s`.
  ghost predicate Reaches(c: Config, bound: Time, es: seq<Event>, s: State) {
    Legal(c, Initial(), es) && AllWithin(c, bound, Initial(), es) && Exec(Initial(), es) == s
  }

  lemma Extend(c: Config, bound: Time, es: seq<Event>, s: State, e: Event) returns (es': seq<Event>, s': State)
    requires Reaches(c, bound, es, s) && Enabled(c, s, e) && TimelyWithin(c, bound, s, e)
    ensures s' == Apply(s, e) && Reaches(c, bound, es', s')
  {
    es', s' := es + [e], Apply(s, e);
    RunThen(c, Initial(), es, e);
    WithinThen(c, bound, Initial(), es, e);
  }

  const PARK_PATCH: Record := map[StatusKey := Is(WaitingForLlm), PhaseKey := Data(0), EndpointKey := Data(0),
                                  UpdatedKey := Data(0)]
  const RUNNING_PATCH: Record := map[StatusKey := Is(Running), PhaseKey := Data(0), UpdatedKey := Data(0)]
  const SOME_REQUEST := Request(0, 0, 0, 0, 0)

  // Task 0 with one record, one history and the given owners, at the given time.
  function Moment(now: Time, r: Record, h: seq<Record>, owners: map<Pid, Owner>, next: Pid,
                  locks: map<TaskId, Time>, seen: set<Sighting>): State {
    State(now, Tiers(map[0 := r], map[]), locks, owners, next, seen, None, map[0 := h])
  }

  const CREATED: Record := CreationRecord(0, 0, SOME_REQUEST, 0)
  const PARKED: Record := CREATED + PARK_PATCH

  lemma CreatedRun(c: Config, bound: Time) returns (es: seq<Event>, s: State)
    requires c.cap(0) > 0 && bound > 0
    ensures s == Moment(0, CREATED, [CREATED], map[0 := Owner(0, ApiEnqueue)], 1, map[], {}) && Reaches(c, bound, es, s)
  {
    es, s := Extend(c, bound, [], Initial(), ScanStart(0));
    CreatedRecord(s, 0, SOME_REQUEST);
    es, s := Extend(c, bound, es, s, Create(0, SOME_REQUEST));
  }

  lemma ExecutingRun(c: Config, bound: Time) returns (es: seq<Event>, s: State)
    requires c.cap(0) > 0 && bound > 0
    ensures s == Moment(0, CREATED, [CREATED], map[0 := Owner(0, Executing)], 1, map[], {}) && Reaches(c, bound, es, s)
  {
    es, s := CreatedRun(c, bound);
    es, s := Extend(c, bound, es, s, Enqueued(0));
    es, s := Extend(c, bound, es, s, Pick(0));
  }

  lemma ParkingRun(c: Config, bound: Time) returns (es: seq<Event>, s: State)
    requires c.cap(0) > 0 && bound > 0
    ensures s == Moment(0, CREATED, [CREATED], map[0 := Owner(0, Writing(Some(CREATED), PARK_PATCH, Release))], 1,
                        map[], {})
    ensures Reaches(c, bound, es, s)
  {
    es, s := ExecutingRun(c, bound);
    es, s := Extend(c, bound, es, s, BeginWrite(0, PARK_PATCH));
  }

  lemma ParkedRun(c: Config, bound: Time) returns (es: seq<Event>, s: State)
    requires c.cap(0) > 0 && bound > 0
    ensures s == Moment(0, PARKED, [CREATED, PARK_PATCH], map[], 1, map[], {}) && Reaches(c, bound, es, s)
  {
    es, s := ParkingRun(c, bound);
    es, s := Extend(c, bound, es, s, CommitWrite(0));
    ParkingMerges();
    assert s.owners == map[] && s.history[0] == [CREATED, PARK_PATCH];
  }

  lemma ParkingMerges()
    ensures Merge(Some(CREATED), 0, PARK_PATCH) == PARKED
  {
  }

  // One supervisor sees and claims the parked task at once.
  lemma ClaimedRun(c: Config, bound: Time) returns (es: seq<Event>, s: State)
    requires c.cap(0) > 0 && bound > 0
    ensures s == Moment(0, PARKED, [CREATED, PARK_PATCH], map[1 := Owner(0, Claimed(0))], 2,
                        map[0 := DRAIN_LOCK_TTL], {Sighting(0, 0)})
    ensures Reaches(c, bound, es, s)
  {
    es, s := ParkedRun(c, bound);
    es, s := Extend(c, bound, es, s, Snapshot(0, PARKED));
    es, s := Extend(c, bound, es, s, Claim(0, 0));
  }

  // It uses its whole write delay; at the last moment a second supervisor still sees the task waiting.
  lemma SeenLateRun(c: Config, bound: Time) returns (es: seq<Event>, s: State)
    requires c.cap(0) > 0 && bound > 0
    ensures s == Moment(c.writeDelay, PARKED, [CREATED, PARK_PATCH], map[1 := Owner(0, Claimed(0))], 2,
                        map[0 := DRAIN_LOCK_TTL], {Sighting(0, 0), Sighting(0, c.writeDelay)})
    ensures Reaches(c, bound, es, s)
  {
    es, s := ClaimedRun(c, bound);
    es, s := Extend(c, bound, es, s, Tick(c.writeDelay));
    es, s := Extend(c, bound, es, s, Snapshot(0, PARKED));
  }

  lemma DrainWritingRun(c: Config, bound: Time) returns (es: seq<Event>, s: State)
    requires c.cap(0) > 0 && bound > 0
    ensures s == Moment(c.writeDelay, PARKED, [CREATED, PARK_PATCH],
                        map[1 := Owner(0, Writing(Some(PARKED), RUNNING_PATCH, Drain(0)))], 2,
                        map[0 := DRAIN_LOCK_TTL], {Sighting(0, 0), Sighting(0, c.writeDelay)})
    ensures Reaches(c, bound, es, s)
  {
    es, s := SeenLateRun(c, bound);
    es, s := Extend(c, bound, es, s, BeginWrite(1, RUNNING_PATCH));
  }

  // The first supervisor writes `running`, and time passes until its lock expires.
  lemma SlowDrainRun(c: Config, bound: Time) returns (es: seq<Event>, s: State)
    requires c.writeDelay < DRAIN_LOCK_TTL && c.cap(0) > 0 && bound > 0
    ensures Reaches(c, bound, es, s)
    ensures s.now == DRAIN_LOCK_TTL && s.nextPid == 2 && s.owners == map[1 := Owner(0, SupervisorEnqueue)]
    ensures s.locks == map[0 := DRAIN_LOCK_TTL] && Sighting(0, c.writeDelay) in s.sightings
  {
    es, s := DrainWritingRun(c, bound);
    es, s := Extend(c, bound, es, s, CommitWrite(1));
    assert s.owners == map[1 := Owner(0, SupervisorEnqueue)];
    es, s := Extend(c, bound, es, s, Tick(DRAIN_LOCK_TTL - c.writeDelay));
  }

  /** The claim-age bound is exact: for every write delay there is a run, timely in every other
      respect, whose last claim comes exactly (lock TTL - write delay) after its read, and that
      claim gives the task a second owner. */
  lemma LateClaimBreaksSingleFlight(c: Config) returns (es: seq<Event>, at: Time)
    requires c.writeDelay < DRAIN_LOCK_TTL && c.cap(0) > 0
    ensures Run(c, Initial(), es)
    ensures Exec(Initial(), es).now - at == DRAIN_LOCK_TTL - c.writeDelay
    ensures Legal(c, Initial(), es + [Claim(0, at)])
    ensures !SingleOwner(Exec(Initial(), es + [Claim(0, at)]))
  {
    var s;
    es, s := SlowDrainRun(c, DRAIN_LOCK_TTL - c.writeDelay);
    WithinIsTimely(c, DRAIN_LOCK_TTL - c.writeDelay, Initial(), es);
    at := c.writeDelay;
    SecondOwner(c, es, s, 1, at);
  }

  lemma SecondOwner(c: Config, es: seq<Event>, s: State, p: Pid, at: Time)
    requires Legal(c, Initial(), es) && Exec(Initial(), es) == s && Enabled(c, s, Claim(0, at))
    requires p in s.owners && s.owners[p].task == 0 && p != s.nextPid
    ensures Legal(c, Initial(), es + [Claim(0, at)])
    ensures !SingleOwner(Exec(Initial(), es + [Claim(0, at)]))
  {
    RunThen(c, Initial(), es, Claim(0, at));
    var s' := Apply(s, Claim(0, at));
    assert p in s'.owners && s.nextPid in s'.owners && s'.owners[p].task == s'.owners[s.nextPid].task;
  }

  // A write delay that outlasts the lock: a second supervisor sees the task when the lock has expired.
  lemma StaleLockRun(c: Config, bound: Time) returns (es: seq<Event>, s: State)
    requires c.writeDelay >= DRAIN_LOCK_TTL && c.cap(0) > 0 && bound > 0
    ensures Reaches(c, bound, es, s)
    ensures s.now == DRAIN_LOCK_TTL && s.nextPid == 2 && s.owners == map[1 := Owner(0, Claimed(0))]
    ensures s.locks == map[0 := DRAIN_LOCK_TTL] && Sighting(0, DRAIN_LOCK_TTL) in s.sightings
  {
    es, s := ClaimedRun(c, bound);
    es, s := Extend(c, bound, es, s, Tick(DRAIN_LOCK_TTL));
    es, s := Extend(c, bound, es, s, Snapshot(0, PARKED));
  }

  // Every run whose claims come less than `bound` after their reads keeps single owners.
  ghost predicate SafeWithin(c: Config, bound: Time) {
    forall es :: Legal(c, Initial(), es) && AllWithin(c, bound, Initial(), es) ==> SingleOwner(Exec(Initial(), es))
  }

  /** Single flight holds of all runs if and only if the claim age and the write delay together stay
      within the lock's life. */
  lemma SafeExactlyWithin(c: Config, bound: Time)
    requires bound > 0 && c.cap(0) > 0
    ensures SafeWithin(c, bound) <==> bound + c.writeDelay <= DRAIN_LOCK_TTL
  {
    if bound + c.writeDelay <= DRAIN_LOCK_TTL {
      forall es | Legal(c, Initial(), es) && AllWithin(c, bound, Initial(), es)
          ensures SingleOwner(Exec(Initial(), es)) {
        WithinIsTimely(c, bound, Initial(), es);
        var s := Exec(Initial(), es);
        forall p, q | p in s.owners && q in s.owners && s.owners[p].task == s.owners[q].task ensures p == q {
          SingleFlight(c, es, p, q);
        }
      }
    } else {
      var es, s, at := UnsafeRun(c, bound);
      SecondOwner(c, es, s, 1, at);
      WithinThen(c, bound, Initial(), es, Claim(0, at));
    }
  }

  lemma UnsafeRun(c: Config, bound: Time) returns (es: seq<Event>, s: State, at: Time)
    requires bound > 0 && c.cap(0) > 0 && bound + c.writeDelay > DRAIN_LOCK_TTL
    ensures Reaches(c, bound, es, s) && Enabled(c, s, Claim(0, at)) && s.now < at + bound
    ensures s.nextPid == 2 && 1 in s.owners && s.owners[1].task == 0
  {
    if c.writeDelay < DRAIN_LOCK_TTL {
      es, s := SlowDrainRun(c, bound);
      at := c.writeDelay;
    } else {
      es, s := StaleLockRun(c, bound);
      at := DRAIN_LOCK_TTL;
    }
  }
}
