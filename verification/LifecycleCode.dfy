/** The code of the API, the worker and the drain supervisor, each action of which is one event of
    the lifecycle protocol. Between any two actions the other processes may take any steps of their
    own; what they do is an arbitrary input. */
module LifecycleCode {
  import opened Options
  import opened Sets
  import opened ResearchStore
  import opened Lifecycle
  import LifecycleTheorems

  // The process that an event belongs to, when it acts for an existing owner.
  predicate ActsFor(e: Event, self: Option<Pid>) {
    (e.Enqueued? || e.Pick? || e.Load? || e.BeginWrite? || e.CommitWrite?) && self == Some(e.pid)
  }

  predicate IsAdmission(e: Event) {
    e.ScanStart? || e.ScanRead? || e.Reject? || e.Create?
  }

  // Every id that is mentioned anywhere was issued by a creation.
  ghost predicate IdsIssued(s: State) {
    && (forall p :: p in s.owners ==> p < s.nextPid && s.owners[p].task in s.history)
    && (forall r :: r in s.sightings ==> r.task in s.history)
    && (forall id :: id in s.tiers.redis ==> id in s.history)
  }

  // What interleaving can only add to.
  ghost predicate Grew(a: State, b: State) {
    && a.sightings <= b.sightings && a.history.Keys <= b.history.Keys && a.nextPid <= b.nextPid
    && forall id :: FirstPatch(a, id).Some? ==> FirstPatch(b, id) == FirstPatch(a, id)
  }

  function FirstPatch(s: State, id: TaskId): Option<Record> {
    if id in s.history && s.history[id] != [] then Some(s.history[id][0]) else None
  }

  // What other processes cannot change for the process `self`, which may own nothing.
  ghost predicate LeftAlone(a: State, b: State, self: Option<Pid>, apiBusy: bool) {
    && Grew(a, b)
    && (self.Some? && self.value in a.owners ==> self.value in b.owners && b.owners[self.value] == a.owners[self.value])
    && (apiBusy ==> b.admission == a.admission && b.history.Keys == a.history.Keys)
  }

  lemma IdsStayIssued(c: Config, s: State, e: Event)
    requires IdsIssued(s) && Enabled(c, s, e)
    ensures IdsIssued(Apply(s, e)) && Grew(s, Apply(s, e))
  {
  }

  lemma OtherStep(c: Config, s: State, e: Event, self: Option<Pid>, apiBusy: bool)
    requires IdsIssued(s) && Enabled(c, s, e) && !ActsFor(e, self) && !(apiBusy && IsAdmission(e))
    ensures IdsIssued(Apply(s, e)) && LeftAlone(s, Apply(s, e), self, apiBusy)
  {
    IdsStayIssued(c, s, e);
  }

  // What the other processes do at each interleaving point.
  type Others = nat -> seq<Event>

  // Names a run where its steps matter; elsewhere `Valid` stays folded.
  ghost predicate SameRun(a: seq<Event>, b: seq<Event>) {
    a == b
  }

  /** The deployment seen from one process: the shared state, everything that happened so far, and
      what this process itself did. */
  class Deployment {
    const c: Config
    ghost const start: State
    var st: State
    ghost var happened: seq<Event>
    ghost var mine: seq<Event>
    var turn: nat

    ghost predicate Valid()
      reads this
    {
      && (forall run :: SameRun(run, happened) ==> Legal(c, start, run) && Exec(start, run) == st)
      && IdsIssued(st)
    }

    constructor (c: Config, s: State)
      requires IdsIssued(s)
      ensures Valid() && this.c == c && start == s && st == s && happened == [] && mine == []
    {
      this.c, start, st, happened, mine, turn := c, s, s, [], [], 0;
    }

    // The steps so far are a legal run from the starting state to the current one.
    lemma IsRun()
      requires Valid()
      ensures Legal(c, start, happened) && Exec(start, happened) == st
    {
      assert SameRun(happened, happened);
    }

    // One action of some process.
    method Happen(e: Event)
      requires Valid() && Enabled(c, st, e)
      modifies this`st, this`happened
      ensures Valid() && st == Apply(old(st), e) && Grew(old(st), st) && happened == old(happened) + [e]
    {
      IsRun();
      RunThen(c, start, happened, e);
      IdsStayIssued(c, st, e);
      happened := happened + [e];
      st := Apply(st, e);
    }

    // One action of this process.
    method Act(e: Event)
      requires Valid() && Enabled(c, st, e)
      modifies this`st, this`happened, this`mine
      ensures Valid() && st == Apply(old(st), e) && Grew(old(st), st) && mine == old(mine) + [e]
    {
      Happen(e);
      mine := mine + [e];
    }

    // Whatever the other processes do meanwhile; only the owner's own process acts for an owner, and
    // `apiBusy` says that the single API process is inside its admission check.
    method Interleave(others: Others, self: Option<Pid>, apiBusy: bool)
      requires Valid()
      modifies this`st, this`happened, this`turn
      ensures Valid() && LeftAlone(old(st), st, self, apiBusy)
    {
      var es := others(turn);
      turn := turn + 1;
      for i := 0 to |es|
        invariant Valid() && LeftAlone(old(st), st, self, apiBusy)
      {
        var e := es[i];
        if Enabled(c, st, e) && !ActsFor(e, self) && !(apiBusy && IsAdmission(e)) {
          OtherStep(c, st, e, self, apiBusy);
          Happen(e);
        }
      }
    }
  }

  /** `set_task`: a read, then (other processes may act) a write of the merged record. A supervisor
      that wrote `running` goes on to enqueue; every other writer is done with the task. */
  method SetTask(d: Deployment, self: Pid, patch: Record, others: Others)
    requires d.Valid() && self in d.st.owners && MayWrite(d.st.owners[self].stage, patch)
    modifies d
    ensures d.Valid() && Grew(old(d.st), d.st)
    ensures d.mine == old(d.mine) + [BeginWrite(self, patch), CommitWrite(self)]
    ensures if old(d.st.owners[self].stage.Claimed?)
            then self in d.st.owners && d.st.owners[self] == Owner(old(d.st.owners[self].task), SupervisorEnqueue)
            else self !in d.st.owners
  {
    d.Act(BeginWrite(self, patch));
    d.Interleave(others, Some(self), false);
    d.Act(CommitWrite(self));
  }

  // ----- the worker -----

  function ConfigOf(r: Record): nat {
    if LlmConfigKey in r && r[LlmConfigKey].Data? then r[LlmConfigKey].datum else 0
  }

  // How the agent run ended: a report (possibly with failed LLM calls inside) or an exception.
  datatype Outcome = Report(result: nat, llmCallsFailed: bool) | Raised(error: nat)

  function ParkPatch(endpoint: nat, now: Time): Record {
    map[StatusKey := Is(WaitingForLlm), PhaseKey := Data(1), EndpointKey := Data(endpoint), UpdatedKey := Data(now)]
  }

  function CompletedPatch(result: nat, now: Time): Record {
    map[StatusKey := Is(Completed), PhaseKey := Data(2), ResultKey := Data(result), UpdatedKey := Data(now)]
  }

  function FailedPatch(error: nat, now: Time): Record {
    map[StatusKey := Is(Failed), ErrorKey := Data(error), UpdatedKey := Data(now)]
  }

  // When a run counts as lost to a dead endpoint rather than finished.
  predicate LostToEndpoint(reachableBefore: bool, run: Outcome, reachableAfter: bool) {
    !reachableBefore || (!reachableAfter && (run.Raised? || run.llmCallsFailed))
  }

  // The record update that ends a run which did find its task.
  function RunPatch(reachableBefore: bool, run: Outcome, reachableAfter: bool, endpoint: nat, now: Time): (p: Record)
    ensures IsParkPatch(p) || IsCompletedPatch(p) || IsFailedPatch(p)
    ensures HasStatus(p, WaitingForLlm) <==> LostToEndpoint(reachableBefore, run, reachableAfter)
    ensures HasStatus(p, WaitingForLlm) ==> p[EndpointKey] == Data(endpoint)
    ensures UpdatedKey in p && p[UpdatedKey] == Data(now)
    ensures HasStatus(p, WaitingForLlm) <==>
              !reachableBefore || (!reachableAfter && (run.Raised? || (run.Report? && run.llmCallsFailed)))
    ensures HasStatus(p, Completed) <==> reachableBefore && run.Report? && (reachableAfter || !run.llmCallsFailed)
    ensures HasStatus(p, Failed) <==> reachableBefore && run.Raised? && reachableAfter
    ensures HasStatus(p, Completed) ==> run.Report? && p[ResultKey] == Data(run.result)
    ensures HasStatus(p, Failed) ==> run.Raised? && p[ErrorKey] == Data(run.error)
  {
    if !reachableBefore then ParkPatch(endpoint, now)
    else
      match run
      case Report(result, failedCalls) =>
        if failedCalls && !reachableAfter then ParkPatch(endpoint, now) else CompletedPatch(result, now)
      case Raised(error) =>
        if !reachableAfter then ParkPatch(endpoint, now) else FailedPatch(error, now)
  }

  /** `execute_research_task`: whatever happens, the worker writes exactly one status, gives the task
      up, and returns the status it wrote. It parks exactly when the endpoint was the problem. */
  method ExecuteResearchTask(d: Deployment, self: Pid, reachableBefore: bool, run: Outcome,
                             reachableAfter: bool, endpointOf: nat -> nat, others: Others)
    returns (status: Status, ghost found: Option<Record>, ghost at: Time)
    requires d.Valid() && self in d.st.owners && d.st.owners[self].stage.Queued?
    modifies d
    ensures d.Valid() && Grew(old(d.st), d.st) && self !in d.st.owners
    ensures var patch := EndPatch(found, reachableBefore, run, reachableAfter, endpointOf, at);
            && d.mine == old(d.mine) + [Pick(self), Load(self, found), BeginWrite(self, patch), CommitWrite(self)]
            && HasStatus(patch, status)
  {
    var record := PickUp(d, self, others);
    found := record;
    if record.Some? {
      d.Interleave(others, Some(self), false);   // reachability probe, agent run, second probe
    }
    at := d.st.now;
    var patch := EndPatch(record, reachableBefore, run, reachableAfter, endpointOf, d.st.now);
    SetTask(d, self, patch, others);
    status := patch[StatusKey].status;
  }

  // A message whose record is gone is written off; otherwise the run's end decides.
  function EndPatch(found: Option<Record>, reachableBefore: bool, run: Outcome, reachableAfter: bool,
                    endpointOf: nat -> nat, now: Time): (p: Record)
    ensures IsParkPatch(p) || IsCompletedPatch(p) || IsFailedPatch(p)
    ensures found.None? ==> HasStatus(p, Failed)
  {
    if found.None? then FailedPatch(0, now)
    else RunPatch(reachableBefore, run, reachableAfter, endpointOf(ConfigOf(found.value)), now)
  }

  /** A task that is parked is later grouped under the endpoint of the configuration in its record, whatever
      endpoint that configuration would imply by then. */
  lemma ParkedUnderItsEndpoint(r: Record, id: TaskId, reachableBefore: bool, run: Outcome, reachableAfter: bool,
                               endpointOf: nat -> nat, endpointLater: nat -> nat, now: Time)
    requires LostToEndpoint(reachableBefore, run, reachableAfter)
    ensures var parked := Merge(Some(r), id, EndPatch(Some(r), reachableBefore, run, reachableAfter, endpointOf, now));
            GroupKey(parked, endpointLater) == endpointOf(ConfigOf(r)) && ConfigOf(parked) == ConfigOf(r)
  {
  }

  /** The configuration in a task's record is the one of its request. */
  lemma ConfigOfRequest(r: Record, id: TaskId, tenant: TenantId, q: Request, at: Time)
    requires CarriesRequest(r, id, tenant, q, at)
    ensures ConfigOf(r) == q.llmConfig
  {
  }

  // The group key: the endpoint recorded when the task was parked, else the one its config implies.
  function GroupKey(r: Record, endpointOf: nat -> nat): nat {
    if EndpointKey in r && r[EndpointKey].Data? then r[EndpointKey].datum else endpointOf(ConfigOf(r))
  }

  // The worker consumes the message and reads the task's record.
  method PickUp(d: Deployment, self: Pid, others: Others) returns (found: Option<Record>)
    requires d.Valid() && self in d.st.owners && d.st.owners[self].stage.Queued?
    modifies d
    ensures d.Valid() && Grew(old(d.st), d.st)
    ensures d.mine == old(d.mine) + [Pick(self), Load(self, found)]
    ensures self in d.st.owners && d.st.owners[self].stage.Executing?
  {
    d.Act(Pick(self));
    d.Interleave(others, Some(self), false);
    found := Lookup(d.st.tiers, d.st.owners[self].task);
    d.Act(Load(self, found));
  }

  // ----- the API -----

  function ScanReads(ids: seq<TaskId>): seq<Event> {
    seq(|ids|, i requires 0 <= i < |ids| => ScanRead(ids[i]))
  }

  // SCAN yields every key that is present throughout, in any order, possibly repeatedly, and perhaps
  // others; a key that was removed meanwhile may as well be yielded, since reading it finds nothing.
  predicate Yields(scan: seq<TaskId>, keys: set<TaskId>) {
    forall id :: id in keys ==> id in scan
  }

  /** The admission count: every key the scan yields is read, while workers and supervisors keep writing. */
  method CountActive(d: Deployment, tenant: TenantId, scan: seq<TaskId>, others: Others)
    requires d.Valid() && d.st.admission.None? && Yields(scan, d.st.tiers.redis.Keys)
    modifies d
    ensures d.Valid() && Grew(old(d.st), d.st) && d.st.history.Keys == old(d.st.history.Keys)
    ensures d.st.admission.Some? && d.st.admission.value.tenant == tenant
    ensures d.st.admission.value.keys <= d.st.admission.value.visited
    ensures d.mine == old(d.mine) + [ScanStart(tenant)] + ScanReads(scan)
  {
    d.Act(ScanStart(tenant));
    for i := 0 to |scan|
      invariant d.Valid() && Grew(old(d.st), d.st)
      invariant d.st.admission.Some? && d.st.admission.value.tenant == tenant
      invariant d.st.admission.value.keys == old(d.st.tiers.redis.Keys)
      invariant forall j :: 0 <= j < i ==> scan[j] in d.st.admission.value.visited
      invariant d.st.history.Keys == old(d.st.history.Keys)
      invariant d.mine == old(d.mine) + [ScanStart(tenant)] + ScanReads(scan[..i])
    {
      d.Interleave(others, None, true);
      d.Act(ScanRead(scan[i]));
      assert ScanReads(scan[..i + 1]) == ScanReads(scan[..i]) + [ScanRead(scan[i])];
    }
    assert scan[..|scan|] == scan;
  }

  // The API's part of a task's life after its creation: enqueue it, or record that enqueueing failed.
  function EnqueueActs(self: Pid, kiqRaises: bool, error: nat, at: Time): seq<Event> {
    if kiqRaises then [BeginWrite(self, FailedPatch(error, at)), CommitWrite(self)] else [Enqueued(self)]
  }

  /** The API ends by handing the message to the queue, or by a `failed` record when that raised. */
  lemma EnqueueActsSay(self: Pid, kiqRaises: bool, error: nat, at: Time)
    ensures var acts := EnqueueActs(self, kiqRaises, error, at);
            if !kiqRaises then acts == [Enqueued(self)]
            else
              && |acts| == 2 && acts[0].BeginWrite? && acts[0].pid == self && acts[1] == CommitWrite(self)
              && acts[0].patch == map[StatusKey := Is(Failed), ErrorKey := Data(error), UpdatedKey := Data(at)]
  {
  }

  method EnqueueCreated(d: Deployment, self: Pid, kiqRaises: bool, error: nat, others: Others) returns (ghost at: Time)
    requires d.Valid() && self in d.st.owners && d.st.owners[self].stage.ApiEnqueue?
    modifies d
    ensures d.Valid() && Grew(old(d.st), d.st)
    ensures d.mine == old(d.mine) + EnqueueActs(self, kiqRaises, error, at)
    ensures kiqRaises ==> self !in d.st.owners
  {
    d.Interleave(others, Some(self), false);
    at := d.st.now;
    if kiqRaises {
      SetTask(d, self, FailedPatch(error, d.st.now), others);
    } else {
      d.Act(Enqueued(self));
    }
  }

  /** `POST /run`: rejected exactly when the counted active tasks reach the cap; an admitted task is
      created and then enqueued, or recorded as `failed` when enqueueing raises. */
  method PostRun(d: Deployment, tenant: TenantId, request: Request, id: TaskId, scan: seq<TaskId>,
                 kiqRaises: bool, error: nat, others: Others)
    returns (admitted: bool, ghost self: Pid, ghost at: Time, ghost createdAt: Time)
    requires d.Valid() && d.st.admission.None? && id !in d.st.history && Yields(scan, d.st.tiers.redis.Keys)
    modifies d
    ensures d.Valid() && Grew(old(d.st), d.st)
    ensures d.mine == old(d.mine) + [ScanStart(tenant)] + ScanReads(scan) +
                      AdmitActs(admitted, id, request, self, kiqRaises, error, at)
    ensures admitted ==> id in d.st.history && (kiqRaises ==> self !in d.st.owners)
    ensures admitted ==> CreatedAs(d.st, id, tenant, request, createdAt)
  {
    CountActive(d, tenant, scan, others);
    d.Interleave(others, None, true);
    createdAt := d.st.now;
    admitted, self, at := Admit(d, request, id, kiqRaises, error, others);
  }

  // The first record written for the task is a running one that carries the request.
  ghost predicate CreatedAs(s: State, id: TaskId, tenant: TenantId, q: Request, at: Time) {
    && FirstPatch(s, id).Some?
    && CarriesRequest(FirstPatch(s, id).value, id, tenant, q, at)
    && HasStatus(FirstPatch(s, id).value, Running)
  }

  function AdmitActs(admitted: bool, id: TaskId, request: Request, self: Pid, kiqRaises: bool, error: nat,
                     at: Time): seq<Event> {
    if admitted then [Create(id, request)] + EnqueueActs(self, kiqRaises, error, at) else [Reject]
  }

  // The record is written and the API owns the task.
  method CreateTask(d: Deployment, request: Request, id: TaskId)
    requires d.Valid() && Enabled(d.c, d.st, Create(id, request))
    modifies d
    ensures d.Valid() && Grew(old(d.st), d.st) && d.mine == old(d.mine) + [Create(id, request)]
    ensures old(d.st.nextPid) in d.st.owners && d.st.owners[old(d.st.nextPid)].stage.ApiEnqueue? && id in d.st.history
    ensures CreatedAs(d.st, id, old(d.st.admission.value.tenant), request, old(d.st.now))
  {
    LifecycleTheorems.CreationCarriesRequest(d.c, d.st, id, request);
    d.Act(Create(id, request));
  }

  // The decision, once the count is complete.
  method Admit(d: Deployment, request: Request, id: TaskId, kiqRaises: bool, error: nat, others: Others)
    returns (admitted: bool, ghost self: Pid, ghost at: Time)
    requires d.Valid() && ScanComplete(d.st) && id !in d.st.history
    modifies d
    ensures d.Valid() && Grew(old(d.st), d.st)
    ensures admitted <==> old(d.st.admission.value.count) < d.c.cap(old(d.st.admission.value.tenant))
    ensures d.mine == old(d.mine) + AdmitActs(admitted, id, request, self, kiqRaises, error, at)
    ensures admitted ==> id in d.st.history && (kiqRaises ==> self !in d.st.owners)
    ensures admitted ==> CreatedAs(d.st, id, old(d.st.admission.value.tenant), request, old(d.st.now))
  {
    var me := d.st.nextPid;
    self, at := me, d.st.now;
    admitted := d.st.admission.value.count < d.c.cap(d.st.admission.value.tenant);
    if admitted {
      CreateTask(d, request, id);
      at := EnqueueCreated(d, me, kiqRaises, error, others);
    } else {
      d.Act(Reject);
    }
  }

  // ----- the drain supervisor -----

  // A parked task as the supervisor's store scan returned it.
  datatype Parked = Parked(task: TaskId, at: Time, key: nat, llmConfig: nat)

  // One key of the store scan, and its task's record if it was waiting.
  datatype Look = Look(task: TaskId, record: Option<Record>)

  // What became of one waiting task: its lock was taken, or it was claimed, set `running`, and enqueued
  // again (or parked again when that raised).
  datatype Pass = Pass(parked: Parked, claimed: bool, self: Pid, runningAt: Time, enqueued: bool, reparkedAt: Time)

  function RunningPatch(now: Time): Record {
    map[StatusKey := Is(Running), PhaseKey := Data(0), UpdatedKey := Data(now)]
  }

  function ReparkPatch(now: Time): Record {
    map[StatusKey := Is(WaitingForLlm), PhaseKey := Data(1), UpdatedKey := Data(now)]
  }

  function DispatchActs(p: Pass): seq<Event> {
    [BeginWrite(p.self, RunningPatch(p.runningAt)), CommitWrite(p.self)] + SettleActs(p)
  }

  function SettleActs(p: Pass): seq<Event> {
    if p.enqueued then [Enqueued(p.self)] else [BeginWrite(p.self, ReparkPatch(p.reparkedAt)), CommitWrite(p.self)]
  }

  function PassActs(p: Pass): seq<Event> {
    if p.claimed then [Claim(p.parked.task, p.parked.at)] + DispatchActs(p) else [Refused(p.parked.task)]
  }

  /** A pass: nothing but the refusal when the lock is taken; otherwise the claim, the `running` record, and then
      the message, or the record parked again. */
  lemma PassActsSay(p: Pass)
    ensures var acts, running, parked := PassActs(p),
            map[StatusKey := Is(Running), PhaseKey := Data(0), UpdatedKey := Data(p.runningAt)],
                                         map[StatusKey := Is(WaitingForLlm), PhaseKey := Data(1),
                                             UpdatedKey := Data(p.reparkedAt)];
            if !p.claimed then acts == [Refused(p.parked.task)]
            else if p.enqueued then
              acts == [Claim(p.parked.task, p.parked.at), BeginWrite(p.self, running), CommitWrite(p.self),
                       Enqueued(p.self)]
            else
              acts == [Claim(p.parked.task, p.parked.at), BeginWrite(p.self, running), CommitWrite(p.self),
                       BeginWrite(p.self, parked), CommitWrite(p.self)]
  {
  }

  function AllPassActs(ps: seq<Pass>): seq<Event> {
    Flat(ActsEach(ps))
  }

  function ActsEach(ps: seq<Pass>): seq<seq<Event>> {
    seq(|ps|, i requires 0 <= i < |ps| => PassActs(ps[i]))
  }

  function Flat(parts: seq<seq<Event>>): seq<Event> {
    if parts == [] then [] else Flat(parts[..|parts| - 1]) + parts[|parts| - 1]
  }

  function LookActs(looks: seq<Look>): seq<Event> {
    seq(|looks|, i requires 0 <= i < |looks| =>
      if looks[i].record.Some? then Snapshot(looks[i].task, looks[i].record.value) else PassOver(looks[i].task))
  }

  function FoundWaiting(looks: seq<Look>): seq<Look> {
    if looks == [] then []
    else FoundWaiting(looks[..|looks| - 1]) + (if looks[|looks| - 1].record.Some? then [looks[|looks| - 1]] else [])
  }

  // A parked task as taken down from a look at it.
  predicate TakenDown(w: Parked, l: Look, endpointOf: nat -> nat) {
    l.record.Some? && w.task == l.task && w.key == GroupKey(l.record.value, endpointOf)
        && w.llmConfig == ConfigOf(l.record.value)
  }

  predicate AllTakenDown(ws: seq<Parked>, looks: seq<Look>, endpointOf: nat -> nat) {
    |ws| == |looks| && forall i :: 0 <= i < |ws| ==> TakenDown(ws[i], looks[i], endpointOf)
  }

  function EnqueuedCount(ps: seq<Pass>): nat {
    if ps == [] then 0 else EnqueuedCount(ps[..|ps| - 1]) + (if ps[|ps| - 1].enqueued then 1 else 0)
  }

  // One key of the scan: a waiting task is taken down with its group key and its LLM configuration.
  method LookAt(d: Deployment, id: TaskId, endpointOf: nat -> nat) returns (w: Option<Parked>, ghost look: Look)
    requires d.Valid()
    modifies d
    ensures d.Valid() && Grew(old(d.st), d.st)
    ensures d.mine == old(d.mine) + LookActs([look]) && look.task == id
    ensures look.record.Some? <==> w.Some?
    ensures w.Some? ==> TakenDown(w.value, look, endpointOf) && Sighting(w.value.task, w.value.at) in d.st.sightings
  {
    if id in d.st.tiers.redis && HasStatus(d.st.tiers.redis[id], WaitingForLlm) {
      var r := d.st.tiers.redis[id];
      w, look := Some(Parked(id, d.st.now, GroupKey(r, endpointOf), ConfigOf(r))), Look(id, Some(r));
      d.Act(Snapshot(id, r));
    } else {
      w, look := None, Look(id, None);
      d.Act(PassOver(id));
    }
  }

  // The keys yielded so far were looked at, in turn, and `waiting` holds those found waiting.
  ghost predicate LookedAt(looks: seq<Look>, waiting: seq<Parked>, keys: seq<TaskId>, endpointOf: nat -> nat) {
    && |looks| == |keys|
    && (forall i :: 0 <= i < |looks| ==> looks[i].task == keys[i])
    && AllTakenDown(waiting, FoundWaiting(looks), endpointOf)
  }

  /** What is found waiting is just the looks with a record. */
  lemma {:induction false} FoundAreWaiting(looks: seq<Look>, l: Look)
    ensures l in FoundWaiting(looks) <==> l in looks && l.record.Some?
  {
    if looks != [] {
      FoundAreWaiting(looks[..|looks| - 1], l);
      assert looks == looks[..|looks| - 1] + [looks[|looks| - 1]];
    }
  }

  function Enqueuing(ps: seq<Pass>): set<nat> {
    set i: nat | i < |ps| && ps[i].enqueued
  }

  /** The count of drained tasks is the number of passes that enqueued one. */
  lemma {:induction false} EnqueuedCountSays(ps: seq<Pass>)
    ensures EnqueuedCount(ps) == |Enqueuing(ps)|
  {
    if ps != [] {
      var n := |ps| - 1;
      var shorter := ps[..n];
      EnqueuedCountSays(shorter);
      assert Enqueuing(ps) == Enqueuing(shorter) + (if ps[n].enqueued then {n} else {});
    }
  }

  lemma OneMoreLook(looks: seq<Look>, l: Look)
    ensures LookActs(looks + [l]) == LookActs(looks) + LookActs([l])
    ensures FoundWaiting(looks + [l]) == FoundWaiting(looks) + (if l.record.Some? then [l] else [])
  {
    assert (looks + [l])[..|looks|] == looks;
  }

  lemma LookedAtOneMore(looks: seq<Look>, waiting: seq<Parked>, keys: seq<TaskId>, l: Look, w: Option<Parked>,
                        endpointOf: nat -> nat)
    requires LookedAt(looks, waiting, keys, endpointOf)
    requires (l.record.Some? <==> w.Some?) && (w.Some? ==> TakenDown(w.value, l, endpointOf))
    ensures LookedAt(looks + [l], if w.Some? then waiting + [w.value] else waiting, keys + [l.task], endpointOf)
  {
    OneMoreLook(looks, l);
    assert FoundWaiting(looks) + [] == FoundWaiting(looks);
  }

  lemma ActsJoin(mine: seq<Event>, looks: seq<Look>, l: Look)
    ensures mine + LookActs(looks) + LookActs([l]) == mine + LookActs(looks + [l])
  {
    OneMoreLook(looks, l);
  }

  /** Every key the scan yields is looked at, and just those found waiting are returned, in scan order. */
  method GetTasksWaitingForLlm(d: Deployment, endpointOf: nat -> nat, scan: seq<TaskId>, others: Others)
    returns (waiting: seq<Parked>, ghost looks: seq<Look>)
    requires d.Valid() && Yields(scan, d.st.tiers.redis.Keys)
    modifies d
    ensures d.Valid() && Grew(old(d.st), d.st)
    ensures d.mine == old(d.mine) + LookActs(looks)
    ensures LookedAt(looks, waiting, scan, endpointOf)
    ensures AllSighted(waiting, d.st)
  {
    waiting, looks := [], [];
    for i := 0 to |scan|
      invariant d.Valid() && Grew(old(d.st), d.st)
      invariant d.mine == old(d.mine) + LookActs(looks)
      invariant LookedAt(looks, waiting, scan[..i], endpointOf)
      invariant AllSighted(waiting, d.st)
    {
      d.Interleave(others, None, false);
      var w; ghost var look;
      w, look := LookAt(d, scan[i], endpointOf);
      LookedAtOneMore(looks, waiting, scan[..i], look, w, endpointOf);
      ActsJoin(old(d.mine), looks, look);
      assert scan[..i + 1] == scan[..i] + [scan[i]];
      looks := looks + [look];
      waiting := if w.Some? then waiting + [w.value] else waiting;
    }
    assert scan[..|scan|] == scan;
  }

  function WithKey(ws: seq<Parked>, key: nat): seq<Parked> {
    if ws == [] then []
    else WithKey(ws[..|ws| - 1], key) + (if ws[|ws| - 1].key == key then [ws[|ws| - 1]] else [])
  }

  // The keys, in the order first seen.
  function KeysSeen(ws: seq<Parked>): seq<nat> {
    if ws == [] then []
    else
      var ks, last := KeysSeen(ws[..|ws| - 1]), ws[|ws| - 1].key;
      if last in ks then ks else ks + [last]
  }

  lemma {:induction false} KeysSeenAreKeys(ws: seq<Parked>, key: nat)
    ensures key in KeysSeen(ws) <==> exists i :: 0 <= i < |ws| && ws[i].key == key
  {
    if ws != [] {
      var shorter := ws[..|ws| - 1];
      KeysSeenAreKeys(shorter, key);
      assert ws[|ws| - 1].key == key ==> key in KeysSeen(ws);
      if i :| 0 <= i < |shorter| && shorter[i].key == key {
        assert ws[i].key == key;
      }
      if i :| 0 <= i < |ws| && ws[i].key == key {
        assert i < |shorter| ==> shorter[i].key == key;
      }
    }
  }

  /** An earlier group's first task was seen before a later group's. */
  lemma {:induction false} KeysSeenInOrder(ws: seq<Parked>, i: nat, j: nat, a: int, b: int)
    requires i < j < |KeysSeen(ws)| && IsFirst(ws, KeysSeen(ws)[i], a) && IsFirst(ws, KeysSeen(ws)[j], b)
    ensures a < b
  {
    var n := |ws| - 1;
    var shorter := ws[..n];
    var ks := KeysSeen(shorter);
    KeysSeenAreKeys(shorter, KeysSeen(ws)[i]);
    KeysSeenAreKeys(shorter, KeysSeen(ws)[j]);
    assert KeysSeen(ws)[i] == ks[i] && ks[i] in ks;
    var x :| 0 <= x < n && shorter[x].key == ks[i];
    assert a < n;
    if b < n {
      assert KeysSeen(ws)[j] in ks by { assert shorter[b].key == KeysSeen(ws)[j]; }
      if j < |ks| {
        KeysSeenInOrder(shorter, i, j, a, b);
      }
    }
  }

  lemma WithOneMore(ws: seq<Parked>, w: Parked)
    ensures forall k :: WithKey(ws + [w], k) == WithKey(ws, k) + (if w.key == k then [w] else [])
  {
    assert (ws + [w])[..|ws|] == ws;
  }

  /** Grouping keeps every waiting task, in order, under its own endpoint and no other. */
  method GroupByEndpoint(waiting: seq<Parked>) returns (order: seq<nat>, groups: map<nat, seq<Parked>>)
    ensures forall k :: k in groups <==> WithKey(waiting, k) != []
    ensures forall k :: k in groups ==> groups[k] == WithKey(waiting, k)
    ensures forall k :: k in order <==> k in groups
    ensures order == KeysSeen(waiting)
    ensures forall i, j :: 0 <= i < j < |order| ==> order[i] != order[j]
  {
    order, groups := [], map[];
    for n := 0 to |waiting|
      invariant forall k :: k in groups <==> WithKey(waiting[..n], k) != []
      invariant forall k :: k in groups ==> groups[k] == WithKey(waiting[..n], k)
      invariant forall k :: k in order <==> k in groups
      invariant order == KeysSeen(waiting[..n])
      invariant forall i, j :: 0 <= i < j < |order| ==> order[i] != order[j]
    {
      var w := waiting[n];
      WithOneMore(waiting[..n], w);
      assert waiting[..n + 1] == waiting[..n] + [w] && waiting[..n + 1][..n] == waiting[..n];
      if w.key !in groups {
        order := order + [w.key];
        groups := groups[w.key := []];
      }
      groups := groups[w.key := groups[w.key] + [w]];
    }
    assert waiting[..|waiting|] == waiting;
  }

  lemma {:induction false} WithKeyMembers(ws: seq<Parked>, key: nat, w: Parked)
    ensures w in WithKey(ws, key) <==> w in ws && w.key == key
  {
    if ws != [] {
      WithKeyMembers(ws[..|ws| - 1], key, w);
      assert ws == ws[..|ws| - 1] + [ws[|ws| - 1]];
    }
  }

  method Settle(d: Deployment, p: Pass, others: Others) returns (ghost at: Time)
    requires d.Valid() && p.self in d.st.owners && d.st.owners[p.self].stage.SupervisorEnqueue?
    modifies d
    ensures d.Valid() && Grew(old(d.st), d.st)
    ensures d.mine == old(d.mine) + SettleActs(p.(reparkedAt := at))
  {
    d.Interleave(others, Some(p.self), false);
    at := d.st.now;
    if p.enqueued {
      d.Act(Enqueued(p.self));
    } else {
      SetTask(d, p.self, ReparkPatch(d.st.now), others);
    }
  }

  // A claimed task is set running, then enqueued or, if that raises, parked again.
  method Redispatch(d: Deployment, w: Parked, self: Pid, kiqRaises: bool, others: Others) returns (ghost pass: Pass)
    requires d.Valid() && self in d.st.owners && d.st.owners[self].stage.Claimed?
    modifies d
    ensures d.Valid() && Grew(old(d.st), d.st)
    ensures pass.parked == w && pass.claimed && pass.self == self && pass.enqueued == !kiqRaises
    ensures d.mine == old(d.mine) + DispatchActs(pass)
  {
    d.Interleave(others, Some(self), false);
    var p := Pass(w, true, self, d.st.now, !kiqRaises, 0);
    SetTask(d, self, RunningPatch(p.runningAt), others);
    ghost var at := Settle(d, p, others);
    pass := p.(reparkedAt := at);
  }

  // Unless another process holds its drain lock, a waiting task is claimed and dispatched.
  method DrainOne(d: Deployment, w: Parked, kiqRaises: bool, others: Others) returns (enqueued: bool, ghost pass: Pass)
    requires d.Valid() && Sighting(w.task, w.at) in d.st.sightings
    modifies d
    ensures d.Valid() && Grew(old(d.st), d.st)
    ensures d.mine == old(d.mine) + PassActs(pass)
    ensures pass.parked == w && pass.enqueued == enqueued == (pass.claimed && !kiqRaises)
  {
    d.Interleave(others, None, false);
    if !LockFree(d.st.locks, w.task, d.st.now) {
      d.Act(Refused(w.task));
      return false, Pass(w, false, 0, 0, false, 0);
    }
    var self := d.st.nextPid;
    d.Act(Claim(w.task, w.at));
    pass := Redispatch(d, w, self, kiqRaises, others);
    enqueued := !kiqRaises;
  }

  // What the outside answers to a supervisor: `probe` by the number of the endpoint group and the
  // configuration probed, `kiqRaises` by the number of the pass.
  datatype Outside = Outside(probe: (nat, nat) -> bool, kiqRaises: nat -> bool)

  // One pass for each of these tasks, in order; the first of them is the pass numbered `first`.
  ghost predicate PassesFor(ps: seq<Pass>, tasks: seq<Parked>, out: Outside, first: nat) {
    && |ps| == |tasks|
    && forall i :: 0 <= i < |ps| ==>
         ps[i].parked == tasks[i] && ps[i].enqueued == (ps[i].claimed && !out.kiqRaises(first + i))
  }

  // The group is visited as the `number`-th, and drained when the endpoint of its first task answers.
  predicate Answers(group: seq<Parked>, out: Outside, number: nat) {
    group != [] && out.probe(number, group[0].llmConfig)
  }

  function ToDrain(group: seq<Parked>, out: Outside, number: nat): seq<Parked> {
    if Answers(group, out, number) then group else []
  }

  // What a supervisor drains in the first `k` groups it visits.
  function AllToDrain(groups: seq<seq<Parked>>, out: Outside, k: nat): seq<Parked>
    requires k <= |groups|
  {
    if k == 0 then [] else AllToDrain(groups, out, k - 1) + ToDrain(groups[k - 1], out, k - 1)
  }

  // The groups, in the order of their keys.
  function GroupsInOrder(waiting: seq<Parked>, order: seq<nat>): seq<seq<Parked>> {
    seq(|order|, g requires 0 <= g < |order| => WithKey(waiting, order[g]))
  }

  // Each group once.
  ghost predicate IsGroupOrder(waiting: seq<Parked>, order: seq<nat>) {
    && (forall k :: k in order <==> WithKey(waiting, k) != [])
    && (forall i, j :: 0 <= i < j < |order| ==> order[i] != order[j])
  }

  // A task that lies in one group only is drained with that group.
  lemma {:induction false} DrainedWith(groups: seq<seq<Parked>>, out: Outside, k: nat, g: nat, w: Parked)
    requires k <= |groups| && g < |groups|
    requires forall i :: 0 <= i < |groups| && i != g ==> w !in groups[i]
    ensures w in AllToDrain(groups, out, k) <==> g < k && w in ToDrain(groups[g], out, g)
  {
    if k > 0 {
      DrainedWith(groups, out, k - 1, g, w);
    }
  }

  // The first task with this key, in the order seen.
  ghost predicate IsFirst(ws: seq<Parked>, key: nat, i: int) {
    0 <= i < |ws| && ws[i].key == key && forall j :: 0 <= j < i ==> ws[j].key != key
  }

  lemma {:induction false} WithKeyFirst(ws: seq<Parked>, key: nat, i: nat)
    requires IsFirst(ws, key, i)
    ensures WithKey(ws, key) != [] && WithKey(ws, key)[0] == ws[i]
  {
    var shorter := ws[..|ws| - 1];
    if i < |ws| - 1 {
      WithKeyFirst(shorter, key, i);
    } else {
      NoneWithKey(shorter, key);
    }
  }

  lemma {:induction false} NoneWithKey(ws: seq<Parked>, key: nat)
    requires forall j :: 0 <= j < |ws| ==> ws[j].key != key
    ensures WithKey(ws, key) == []
  {
    if ws != [] {
      NoneWithKey(ws[..|ws| - 1], key);
    }
  }

  /** A waiting task gets a pass exactly when its group's probe is answered, and the probe is made through
      the configuration of the first task of the group that was seen. */
  lemma DrainsExactlyReachable(waiting: seq<Parked>, order: seq<nat>, out: Outside, g: nat, w: Parked, first: nat)
    requires IsGroupOrder(waiting, order) && g < |order| && order[g] == w.key && IsFirst(waiting, w.key, first)
    ensures w in AllToDrain(GroupsInOrder(waiting, order), out, |order|) <==>
            w in waiting && out.probe(g, waiting[first].llmConfig)
  {
    var groups := GroupsInOrder(waiting, order);
    forall i | 0 <= i < |groups| && i != g ensures w !in groups[i] { WithKeyMembers(waiting, order[i], w); }
    DrainedWith(groups, out, |groups|, g, w);
    WithKeyMembers(waiting, w.key, w);
    WithKeyFirst(waiting, w.key, first);
  }

  lemma {:induction false} FlatConcat(a: seq<seq<Event>>, b: seq<seq<Event>>)
    ensures Flat(a + b) == Flat(a) + Flat(b)
  {
    if b == [] {
      assert a + b == a;
    } else {
      assert (a + b)[..|a + b| - 1] == a + b[..|b| - 1];
      FlatConcat(a, b[..|b| - 1]);
    }
  }

  lemma {:induction false} CountsAdd(ps: seq<Pass>, more: seq<Pass>)
    ensures EnqueuedCount(ps + more) == EnqueuedCount(ps) + EnqueuedCount(more)
  {
    if more == [] {
      assert ps + more == ps;
    } else {
      assert (ps + more)[..|ps + more| - 1] == ps + more[..|more| - 1];
      CountsAdd(ps, more[..|more| - 1]);
    }
  }

  // From `mine0` to `mine` this process did just these passes, and enqueued `drained` tasks.
  ghost predicate Did(mine0: seq<Event>, mine: seq<Event>, ps: seq<Pass>, drained: nat) {
    && (forall run :: SameRun(run, mine) ==> run == mine0 + AllPassActs(ps))
    && drained == EnqueuedCount(ps)
  }

  lemma DidNothing(mine: seq<Event>)
    ensures Did(mine, mine, [], 0)
  {
  }

  lemma DidOne(mine0: seq<Event>, p: Pass)
    ensures Did(mine0, mine0 + PassActs(p), [p], if p.enqueued then 1 else 0)
  {
    var parts := ActsEach([p]);
    assert parts[..|parts| - 1] == [] && parts[|parts| - 1] == PassActs(p);
    assert Flat(parts) == Flat([]) + PassActs(p) == PassActs(p);
  }

  lemma ActsConcat(ps: seq<Pass>, more: seq<Pass>)
    ensures AllPassActs(ps + more) == AllPassActs(ps) + AllPassActs(more)
  {
    FlatConcat(ActsEach(ps), ActsEach(more));
    ActsEachConcat(ps, more);
  }

  lemma ActsEachConcat(ps: seq<Pass>, more: seq<Pass>)
    ensures ActsEach(ps + more) == ActsEach(ps) + ActsEach(more)
  {
  }

  lemma DidMore(mine0: seq<Event>, mine1: seq<Event>, mine2: seq<Event>, ps: seq<Pass>, more: seq<Pass>, n: nat, m: nat)
    requires Did(mine0, mine1, ps, n) && Did(mine1, mine2, more, m)
    ensures Did(mine0, mine2, ps + more, n + m)
  {
    WhatWasDone(mine0, mine1, ps, n);
    WhatWasDone(mine1, mine2, more, m);
    CountsAdd(ps, more);
    ActsConcat(ps, more);
    JoinAssociates(mine0, AllPassActs(ps), AllPassActs(more));
  }

  lemma WhatWasDone(mine0: seq<Event>, mine: seq<Event>, ps: seq<Pass>, drained: nat)
    requires Did(mine0, mine, ps, drained)
    ensures mine == mine0 + AllPassActs(ps) && drained == EnqueuedCount(ps)
  {
    assert SameRun(mine, mine);
  }

  lemma PassesForMore(ps: seq<Pass>, tasks: seq<Parked>, more: seq<Pass>, moreTasks: seq<Parked>, out: Outside,
                      first: nat)
    requires PassesFor(ps, tasks, out, first) && PassesFor(more, moreTasks, out, first + |ps|)
    ensures PassesFor(ps + more, tasks + moreTasks, out, first)
  {
    forall i | 0 <= i < |ps + more|
      ensures (ps + more)[i].parked == (tasks + moreTasks)[i]
      ensures (ps + more)[i].enqueued == ((ps + more)[i].claimed && !out.kiqRaises(first + i))
    {
      if i >= |ps| {
        var j := i - |ps|;
        assert (ps + more)[i] == more[j] && (tasks + moreTasks)[i] == moreTasks[j] && first + i == first + |ps| + j;
      } else {
        assert (ps + more)[i] == ps[i] && (tasks + moreTasks)[i] == tasks[i];
      }
    }
  }

  // Both at once.
  ghost predicate DidFor(mine0: seq<Event>, mine: seq<Event>, ps: seq<Pass>, drained: nat,
                         tasks: seq<Parked>, out: Outside, first: nat) {
    Did(mine0, mine, ps, drained) && PassesFor(ps, tasks, out, first)
  }

  lemma DidMoreFor(mine0: seq<Event>, mine1: seq<Event>, mine2: seq<Event>, ps: seq<Pass>, n: nat, tasks: seq<Parked>,
                   more: seq<Pass>, m: nat, moreTasks: seq<Parked>, out: Outside, first: nat)
    requires DidFor(mine0, mine1, ps, n, tasks, out, first)
    requires DidFor(mine1, mine2, more, m, moreTasks, out, first + |ps|)
    ensures DidFor(mine0, mine2, ps + more, n + m, tasks + moreTasks, out, first)
  {
    DidMore(mine0, mine1, mine2, ps, more, n, m);
    PassesForMore(ps, tasks, more, moreTasks, out, first);
  }

  lemma DidOneFor(mine0: seq<Event>, p: Pass, out: Outside, number: nat)
    requires p.enqueued == (p.claimed && !out.kiqRaises(number))
    ensures DidFor(mine0, mine0 + PassActs(p), [p], if p.enqueued then 1 else 0, [p.parked], out, number)
  {
    DidOne(mine0, p);
  }

  ghost predicate AllSighted(ws: seq<Parked>, s: State) {
    forall w :: w in ws ==> Sighting(w.task, w.at) in s.sightings
  }

  ghost predicate EachSighted(groups: seq<seq<Parked>>, s: State) {
    forall g :: 0 <= g < |groups| ==> AllSighted(groups[g], s)
  }

  lemma SightingsStay(groups: seq<seq<Parked>>, a: State, b: State)
    requires EachSighted(groups, a) && Grew(a, b)
    ensures EachSighted(groups, b)
  {
  }

  lemma GroupSighted(waiting: seq<Parked>, key: nat, s: State)
    requires AllSighted(waiting, s)
    ensures AllSighted(WithKey(waiting, key), s)
  {
    forall w | w in WithKey(waiting, key) ensures w in waiting { WithKeyMembers(waiting, key, w); }
  }

  // One more pass of a group.
  lemma NextInGroup(mine0: seq<Event>, mine: seq<Event>, ps: seq<Pass>, drained: nat, group: seq<Parked>, i: nat,
                    p: Pass, out: Outside, first: nat)
    requires i < |group| && |ps| == i && DidFor(mine0, mine, ps, drained, group[..i], out, first)
    requires p.parked == group[i] && p.enqueued == (p.claimed && !out.kiqRaises(first + i))
    ensures DidFor(mine0, mine + PassActs(p), ps + [p], drained + (if p.enqueued then 1 else 0), group[..i + 1], out,
                   first)
  {
    DidOneFor(mine, p, out, first + i);
    DidMoreFor(mine0, mine, mine + PassActs(p), ps, drained, group[..i], [p], if p.enqueued then 1 else 0, [p.parked],
               out, first);
    assert group[..i + 1] == group[..i] + [group[i]];
  }

  method DrainGroup(d: Deployment, group: seq<Parked>, out: Outside, first: nat, others: Others)
    returns (drained: nat, ghost passes: seq<Pass>)
    requires d.Valid() && AllSighted(group, d.st)
    modifies d
    ensures d.Valid() && Grew(old(d.st), d.st)
    ensures DidFor(old(d.mine), d.mine, passes, drained, group, out, first)
  {
    drained, passes := 0, [];
    DidNothing(d.mine);
    for i := 0 to |group|
      invariant d.Valid() && Grew(old(d.st), d.st)
      invariant |passes| == i && DidFor(old(d.mine), d.mine, passes, drained, group[..i], out, first)
    {
      var ok; ghost var pass;
      ghost var before := d.mine;
      ok, pass := DrainOne(d, group[i], out.kiqRaises(first + i), others);
      NextInGroup(old(d.mine), before, passes, drained, group, i, pass, out, first);
      passes := passes + [pass];
      if ok {
        drained := drained + 1;
      }
    }
    assert group[..|group|] == group;
  }

  // One endpoint group: probed once, through its first task's config, and skipped when unreachable.
  method ProbeAndDrain(d: Deployment, group: seq<Parked>, out: Outside, number: nat, first: nat, others: Others)
    returns (drained: nat, visited: nat, ghost passes: seq<Pass>)
    requires d.Valid() && group != [] && AllSighted(group, d.st)
    modifies d
    ensures d.Valid() && Grew(old(d.st), d.st)
    ensures DidFor(old(d.mine), d.mine, passes, drained, ToDrain(group, out, number), out, first)
    ensures visited == |passes|
  {
    d.Interleave(others, None, false);
    if !out.probe(number, group[0].llmConfig) {
      DidNothing(d.mine);
      return 0, 0, [];
    }
    drained, passes := DrainGroup(d, group, out, first, others);
    visited := |group|;
  }

  method DrainAll(d: Deployment, groups: seq<seq<Parked>>, out: Outside, others: Others)
    returns (drained: nat, ghost passes: seq<Pass>)
    requires d.Valid() && EachSighted(groups, d.st) && forall g :: 0 <= g < |groups| ==> groups[g] != []
    modifies d
    ensures d.Valid() && Grew(old(d.st), d.st)
    ensures DidFor(old(d.mine), d.mine, passes, drained, AllToDrain(groups, out, |groups|), out, 0)
  {
    drained, passes := 0, [];
    var visited := 0;
    DidNothing(d.mine);
    for g := 0 to |groups|
      invariant d.Valid() && Grew(old(d.st), d.st)
      invariant DidFor(old(d.mine), d.mine, passes, drained, AllToDrain(groups, out, g), out, 0)
      invariant visited == |passes|
    {
      var n, m; ghost var ps;
      ghost var before := d.mine;
      SightingsStay(groups, old(d.st), d.st);
      n, m, ps := ProbeAndDrain(d, groups[g], out, g, visited, others);
      ghost var done, next := AllToDrain(groups, out, g), ToDrain(groups[g], out, g);
      DidMoreFor(old(d.mine), before, d.mine, passes, drained, done, ps, n, next, out, 0);
      assert AllToDrain(groups, out, g + 1) == done + next;
      drained, visited, passes := drained + n, visited + m, passes + ps;
    }
  }

  /** `run_supervisor_once`: it looks at every task its scan yields, and then, group by group, makes one
      pass for each task found waiting behind an endpoint that answers, and nothing else; it reports
      how many it saw and how many it enqueued, and no claim is ever left hanging. */
  method RunSupervisorOnce(d: Deployment, endpointOf: nat -> nat, scan: seq<TaskId>, out: Outside, others: Others)
    returns (seen: nat, drained: nat, ghost looks: seq<Look>, ghost waiting: seq<Parked>, ghost order: seq<nat>,
             ghost passes: seq<Pass>)
    requires d.Valid() && Yields(scan, d.st.tiers.redis.Keys)
    modifies d
    ensures d.Valid() && Grew(old(d.st), d.st)
    ensures d.mine == old(d.mine) + LookActs(looks) + AllPassActs(passes)
    ensures LookedAt(looks, waiting, scan, endpointOf)
    ensures order == KeysSeen(waiting) && IsGroupOrder(waiting, order)
            && PassesFor(passes, AllToDrain(GroupsInOrder(waiting, order), out, |order|), out, 0)
    ensures seen == |waiting| && drained == EnqueuedCount(passes)
  {
    var parked;
    parked, looks := GetTasksWaitingForLlm(d, endpointOf, scan, others);
    waiting, seen := parked, |parked|;
    if parked == [] {
      return seen, 0, looks, waiting, [], [];
    }
    var groupOrder, groups := GroupByEndpoint(parked);
    order := groupOrder;
    var values := seq(|groupOrder|,
                      g requires 0 <= g < |groupOrder| && groupOrder[g] in groups => groups[groupOrder[g]]);
    assert values == GroupsInOrder(parked, groupOrder);
    forall g | 0 <= g < |values| ensures AllSighted(values[g], d.st) { GroupSighted(parked, groupOrder[g], d.st); }
    ghost var before := d.mine;
    drained, passes := DrainAll(d, values, out, others);
    WhatWasDone(before, d.mine, passes, drained);
  }

  /** However the processes interleave, as long as the timing assumptions hold the deployment's state
      has one owner per task and no tenant over its cap. */
  lemma TimelyDeploymentIsSafe(d: Deployment, p: Pid, q: Pid, tenant: TenantId)
    requires d.Valid() && d.start == Initial() && d.c.writeDelay < DRAIN_LOCK_TTL
    requires AllTimely(d.c, Initial(), d.happened)
    ensures p in d.st.owners && q in d.st.owners && d.st.owners[p].task == d.st.owners[q].task ==> p == q
    ensures |OccupiedBy(d.st.tiers, tenant)| <= d.c.cap(tenant)
  {
    d.IsRun();
    LifecycleTheorems.TenantCap(d.c, d.happened, tenant);
    if p in d.st.owners && q in d.st.owners && d.st.owners[p].task == d.st.owners[q].task {
      LifecycleTheorems.SingleFlight(d.c, d.happened, p, q);
    }
  }
}
