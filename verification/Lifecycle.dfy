/** The research-task lifecycle as a protocol: the API, the queue, any number of workers and any
    number of drain supervisors act on one store. Each event is one atomic action of one process.
    A task's current owner (the API before its enqueue returns, the queued message, the executing
    worker, or the supervisor between claim and enqueue) is a thread of control with its own id. */
module Lifecycle {
  import opened Options
  import opened ResearchStore

  type Pid = nat

  // `writeDelay` bounds the time between a supervisor's claim and its `running` write.
  datatype Config = Config(cap: TenantId -> nat, writeDelay: Time)

  // What a `set_task` caller does once its write has landed.
  datatype After = Release | Drain(claimedAt: Time)

  datatype Stage =
    | ApiEnqueue                                                // record created, kiq not yet returned
    | Queued                                                    // message in the broker
    | Executing                                                 // inside execute_research_task
    | Claimed(claimedAt: Time)                                  // supervisor holds the drain lock
    | SupervisorEnqueue                                         // `running` written, kiq not yet returned
    | Writing(base: Option<Record>, patch: Record, after: After) // inside set_task, between read and write

  datatype Owner = Owner(task: TaskId, stage: Stage)

  // A supervisor's memory of having read the task as waiting.
  datatype Sighting = Sighting(task: TaskId, at: Time)

  // The admission check in progress in the (single) API process.
  datatype Scan = Scan(tenant: TenantId, keys: set<TaskId>, visited: set<TaskId>, count: nat)

  datatype Request = Request(query: nat, mode: nat, language: nat, schema: nat, llmConfig: nat)

  // `history` records every patch written for a task; its keys are the ids ever issued.
  datatype State = State(
    now: Time,
    tiers: Tiers,
    locks: map<TaskId, Time>,
    owners: map<Pid, Owner>,
    nextPid: Pid,
    sightings: set<Sighting>,
    admission: Option<Scan>,
    history: map<TaskId, seq<Record>>)

  datatype Event =
    | Tick(seconds: Time)
    | ScanStart(tenant: TenantId)
    | ScanRead(scanned: TaskId)
    | Reject
    | Create(id: TaskId, request: Request)
    | Enqueued(pid: Pid)
    | Pick(pid: Pid)
    | Load(pid: Pid, found: Option<Record>)                     // the worker reads its task's record
    | BeginWrite(pid: Pid, patch: Record)
    | CommitWrite(pid: Pid)
    | Snapshot(task: TaskId, record: Record)                    // a supervisor reads the task as waiting
    | PassOver(task: TaskId)                                    // or as not waiting
    | Claim(task: TaskId, readAt: Time)                         // it gets the drain lock
    | Refused(task: TaskId)                                     // or finds it taken
    | Evict(task: TaskId)

  // ----- the records the processes write -----

  const IDENTITY: set<Field> :=
    {TaskIdKey, TenantKey, QueryKey, ModeKey, LanguageKey, SchemaKey, LlmConfigKey, CreatedKey}

  function CreationRecord(id: TaskId, tenant: TenantId, q: Request, now: Time): Record {
    map[TaskIdKey := Data(id), TenantKey := Data(tenant), QueryKey := Data(q.query),
        ModeKey := Data(q.mode), LanguageKey := Data(q.language), SchemaKey := Data(q.schema),
        LlmConfigKey := Data(q.llmConfig), StatusKey := Is(Running), PhaseKey := Data(0),
        IterationKey := Data(0), CreatedKey := Data(now), UpdatedKey := Data(now)]
  }

  /** The record of a task that was asked for by this tenant, with this request, at this time. */
  predicate CarriesRequest(r: Record, id: TaskId, tenant: TenantId, q: Request, at: Time) {
    && TaskIdKey in r && r[TaskIdKey] == Data(id)
    && TenantKey in r && r[TenantKey] == Data(tenant)
    && QueryKey in r && r[QueryKey] == Data(q.query)
    && ModeKey in r && r[ModeKey] == Data(q.mode)
    && LanguageKey in r && r[LanguageKey] == Data(q.language)
    && SchemaKey in r && r[SchemaKey] == Data(q.schema)
    && LlmConfigKey in r && r[LlmConfigKey] == Data(q.llmConfig)
    && CreatedKey in r && r[CreatedKey] == Data(at)
  }

  predicate IsFailedPatch(p: Record) {
    p.Keys == {StatusKey, ErrorKey, UpdatedKey} && HasStatus(p, Failed)
  }

  predicate IsParkPatch(p: Record) {
    p.Keys == {StatusKey, PhaseKey, EndpointKey, UpdatedKey} && HasStatus(p, WaitingForLlm)
  }

  predicate IsCompletedPatch(p: Record) {
    p.Keys == {StatusKey, PhaseKey, ResultKey, UpdatedKey} && HasStatus(p, Completed)
  }

  predicate IsRunningPatch(p: Record) {
    p.Keys == {StatusKey, PhaseKey, UpdatedKey} && HasStatus(p, Running)
  }

  predicate IsReparkPatch(p: Record) {
    p.Keys == {StatusKey, PhaseKey, UpdatedKey} && HasStatus(p, WaitingForLlm)
  }

  // Which patch each process may hand to `set_task` at each point of its code.
  predicate MayWrite(stage: Stage, p: Record) {
    match stage
    case ApiEnqueue => IsFailedPatch(p)
    case Executing => IsParkPatch(p) || IsCompletedPatch(p) || IsFailedPatch(p)
    case Claimed(_) => IsRunningPatch(p)
    case SupervisorEnqueue => IsReparkPatch(p)
    case _ => false
  }

  // ----- the step relation -----

  predicate Enabled(c: Config, s: State, e: Event) {
    match e
    case Tick(_) => true
    case ScanStart(_) => s.admission.None?
    case ScanRead(id) => s.admission.Some?
    case Reject =>
      ScanComplete(s) && s.admission.value.count >= c.cap(s.admission.value.tenant)
    case Create(id, _) =>
      && ScanComplete(s)
      && s.admission.value.count < c.cap(s.admission.value.tenant)
      && id !in s.history
    case Enqueued(p) => p in s.owners && (s.owners[p].stage.ApiEnqueue? || s.owners[p].stage.SupervisorEnqueue?)
    case Pick(p) => p in s.owners && s.owners[p].stage.Queued?
    case Load(p, found) => p in s.owners && found == Lookup(s.tiers, s.owners[p].task)
    case BeginWrite(p, patch) => p in s.owners && MayWrite(s.owners[p].stage, patch)
    case CommitWrite(p) => p in s.owners && s.owners[p].stage.Writing?
    case Snapshot(id, r) => id in WaitingTasks(s.tiers) && r == s.tiers.redis[id]
    case PassOver(id) => id !in WaitingTasks(s.tiers)
    case Claim(id, at) => Sighting(id, at) in s.sightings && LockFree(s.locks, id, s.now)
    case Refused(id) => !LockFree(s.locks, id, s.now)
    case Evict(id) => true
  }

  // SCAN returns every key that is present from its start to its end (possibly repeatedly).
  predicate ScanComplete(s: State) {
    s.admission.Some? && forall id :: id in s.admission.value.keys && id in s.tiers.redis ==>
        id in s.admission.value.visited
  }

  function Apply(s: State, e: Event): State {
    match e
    case Tick(d) => s.(now := s.now + d)
    case ScanStart(t) => s.(admission := Some(Scan(t, s.tiers.redis.Keys, {}, 0)))
    case ScanRead(id) =>
      if s.admission.None? then s else
        var a := s.admission.value;
        var hit := id in s.tiers.redis && Occupies(s.tiers.redis[id], a.tenant);
        s.(admission := Some(a.(visited := a.visited + {id}, count := if hit then a.count + 1 else a.count)))
    case Reject => s.(admission := None)
    case Create(id, q) =>
      if s.admission.None? then s else
        var r := CreationRecord(id, s.admission.value.tenant, q, s.now);
        s.(tiers := Put(s.tiers, id, Merge(Lookup(s.tiers, id), id, r)),
           owners := s.owners[s.nextPid := Owner(id, ApiEnqueue)],
           nextPid := s.nextPid + 1,
           admission := None,
           history := s.history[id := [r]])
    case Enqueued(p) => if p !in s.owners then s else AtStage(s, p, Queued)
    case Pick(p) => if p !in s.owners then s else AtStage(s, p, Executing)
    case BeginWrite(p, patch) =>
      if p !in s.owners then s else
        var o := s.owners[p];
        AtStage(s, p, Writing(Lookup(s.tiers, o.task), patch,
                              if o.stage.Claimed? then Drain(o.stage.claimedAt) else Release))
    case CommitWrite(p) =>
      if p !in s.owners || !s.owners[p].stage.Writing? then s else
        var id, w := s.owners[p].task, s.owners[p].stage;
        s.(tiers := Put(s.tiers, id, Merge(w.base, id, w.patch)),
           owners := if w.after.Release? then s.owners - {p} else s.owners[p := Owner(id, SupervisorEnqueue)],
           history := s.history[id := (if id in s.history then s.history[id] else []) + [w.patch]])
    case Snapshot(id, _) => s.(sightings := s.sightings + {Sighting(id, s.now)})
    case Load(_, _) => s
    case PassOver(_) => s
    case Refused(_) => s
    case Claim(id, _) =>
      s.(locks := s.locks[id := s.now + DRAIN_LOCK_TTL],
         owners := s.owners[s.nextPid := Owner(id, Claimed(s.now))],
         nextPid := s.nextPid + 1)
    case Evict(id) => s.(tiers := Evicted(s.tiers, id))
  }

  function AtStage(s: State, p: Pid, stage: Stage): State
    requires p in s.owners
  {
    s.(owners := s.owners[p := s.owners[p].(stage := stage)])
  }

  // ----- what the deployment is assumed to guarantee, beyond what the code checks -----

  // A supervisor that has claimed its task but not yet written `running`, and when it claimed.
  predicate AwaitsRunningWrite(o: Owner) {
    o.stage.Claimed? || (o.stage.Writing? && o.stage.after.Drain?)
  }

  function ClaimTime(o: Owner): Time
    requires AwaitsRunningWrite(o)
  {
    if o.stage.Claimed? then o.stage.claimedAt else o.stage.after.claimedAt
  }

  /** A claim happens less than (lock TTL - write delay) after the claimer's read, a claimed task is
      written `running` within the write delay, and only finished records reach the 24 h expiry. */
  ghost predicate Timely(c: Config, s: State, e: Event) {
    match e
    case Claim(_, at) => s.now + c.writeDelay < at + DRAIN_LOCK_TTL
    case Tick(d) => forall p :: p in s.owners && AwaitsRunningWrite(s.owners[p]) ==>
        s.now + d <= ClaimTime(s.owners[p]) + c.writeDelay
    case Evict(id) => id in s.tiers.redis ==> !IsActive(s.tiers.redis[id])
    case _ => true
  }

  // ----- runs -----

  function Initial(): State {
    State(0, Tiers(map[], map[]), map[], map[], 0, {}, None, map[])
  }

  function Exec(s: State, es: seq<Event>): State
    decreases |es|
  {
    if es == [] then s else Exec(Apply(s, es[0]), es[1..])
  }

  ghost predicate Legal(c: Config, s: State, es: seq<Event>)
    decreases |es|
  {
    es == [] || (Enabled(c, s, es[0]) && Legal(c, Apply(s, es[0]), es[1..]))
  }

  ghost predicate AllTimely(c: Config, s: State, es: seq<Event>)
    decreases |es|
  {
    es == [] || (Timely(c, s, es[0]) && AllTimely(c, Apply(s, es[0]), es[1..]))
  }

  ghost predicate Run(c: Config, s: State, es: seq<Event>) {
    Legal(c, s, es) && AllTimely(c, s, es)
  }

  lemma {:induction false} RunThen(c: Config, s: State, es: seq<Event>, e: Event)
    requires Legal(c, s, es)
    ensures Exec(s, es + [e]) == Apply(Exec(s, es), e)
    ensures Enabled(c, Exec(s, es), e) ==> Legal(c, s, es + [e])
    ensures AllTimely(c, s, es) && Timely(c, Exec(s, es), e) ==> AllTimely(c, s, es + [e])
    decreases |es|
  {
    if es == [] {
      assert es + [e] == [e] && [e][1..] == [];
    } else {
      assert (es + [e])[0] == es[0] && (es + [e])[1..] == es[1..] + [e];
      RunThen(c, Apply(s, es[0]), es[1..], e);
    }
  }

  // ----- the properties -----

  function OwnedTasks(s: State): set<TaskId> {
    set p | p in s.owners :: s.owners[p].task
  }

  predicate HasOwner(s: State, id: TaskId) {
    id in OwnedTasks(s)
  }

  ghost predicate SingleOwner(s: State) {
    forall p, q :: p in s.owners && q in s.owners && s.owners[p].task == s.owners[q].task ==> p == q
  }

  ghost predicate StatusIs(s: State, id: TaskId, st: Status) {
    id in s.tiers.redis && HasStatus(s.tiers.redis[id], st)
  }

  // Left fold of the patches, starting from an absent record.
  function Fold(id: TaskId, patches: seq<Record>): Record {
    if patches == [] then map[]
    else WithTaskId(Fold(id, patches[..|patches| - 1]) + patches[|patches| - 1], id)
  }
}
