/** What every run of the lifecycle protocol keeps. */
module LifecycleSafety {
  import opened Options
  import opened Sets
  import opened ResearchStore
  import opened Lifecycle

  // ----- the inductive invariant -----

  // A status update: it sets the status and touches no identity field.
  predicate IsUpdate(p: Record) {
    StatusKey in p && p[StatusKey].Is? && p.Keys !! IDENTITY
  }

  ghost predicate ClaimFresh(c: Config, s: State, o: Owner)
    requires AwaitsRunningWrite(o)
  {
    && o.task in s.locks && s.locks[o.task] == ClaimTime(o) + DRAIN_LOCK_TTL
    && ClaimTime(o) <= s.now <= ClaimTime(o) + c.writeDelay
  }

  // What an owner's stage says about its task's record.
  ghost predicate OwnerOk(c: Config, s: State, o: Owner) {
    && StatusIs(s, o.task, if AwaitsRunningWrite(o) then WaitingForLlm else Running)
    && (AwaitsRunningWrite(o) ==> ClaimFresh(c, s, o))
    && (o.stage.Writing? ==>
          && o.stage.base == Some(s.tiers.redis[o.task])
          && IsUpdate(o.stage.patch)
          && (HasStatus(o.stage.patch, Running) <==> o.stage.after.Drain?))
  }

  ghost predicate OwnersOk(c: Config, s: State) {
    && SingleOwner(s)
    && (forall p :: p in s.owners ==> p < s.nextPid && OwnerOk(c, s, s.owners[p]))
  }

  ghost predicate RunningOwned(s: State) {
    forall id :: StatusIs(s, id, Running) ==> HasOwner(s, id)
  }

  function LockExpiry(s: State, id: TaskId): Time {
    if id in s.locks then s.locks[id] else 0
  }

  // Some timely claim could still be based on this sighting.
  predicate Usable(c: Config, s: State, r: Sighting) {
    s.now + c.writeDelay < r.at + DRAIN_LOCK_TTL && LockExpiry(s, r.task) + c.writeDelay < r.at + DRAIN_LOCK_TTL
  }

  ghost predicate SightingOk(c: Config, s: State, r: Sighting) {
    && r.at <= s.now
    && r.task in s.history
    && (Usable(c, s, r) ==> StatusIs(s, r.task, WaitingForLlm) && !HasOwner(s, r.task))
  }

  ghost predicate SightingsOk(c: Config, s: State) {
    forall r :: r in s.sightings ==> SightingOk(c, s, r)
  }

  ghost predicate RecordOk(s: State, id: TaskId, r: Record) {
    && id in s.history && s.history[id] != []
    && r == Fold(id, s.history[id])
    && StatusKey in r && r[StatusKey].Is?
    && (forall k :: 0 < k < |s.history[id]| ==> IsUpdate(s.history[id][k]))
    && IDENTITY <= s.history[id][0].Keys
  }

  ghost predicate StoreOk(s: State) {
    && (forall id :: id in s.tiers.redis ==> RecordOk(s, id, s.tiers.redis[id]))
    && (forall id :: id in s.tiers.disk ==> RecordOk(s, id, s.tiers.disk[id]) && HasStatus(s.tiers.disk[id], Completed))
    && (forall id :: StatusIs(s, id, Completed) ==> id in s.tiers.disk)
  }

  ghost predicate AdmissionOk(s: State) {
    s.admission.Some? ==>
      var a := s.admission.value;
      && OccupiedBy(s.tiers, a.tenant) <= a.keys
      && |OccupiedBy(s.tiers, a.tenant) * a.visited| <= a.count
  }

  ghost predicate CapOk(c: Config, s: State) {
    forall t :: |OccupiedBy(s.tiers, t)| <= c.cap(t)
  }

  ghost predicate OwnershipOk(c: Config, s: State) {
    OwnersOk(c, s) && RunningOwned(s) && SightingsOk(c, s)
  }

  ghost predicate SlotsOk(c: Config, s: State) {
    AdmissionOk(s) && CapOk(c, s)
  }

  ghost predicate Inv(c: Config, s: State) {
    c.writeDelay < DRAIN_LOCK_TTL && OwnershipOk(c, s) && StoreOk(s) && SlotsOk(c, s)
  }

  // ----- owners -----

  lemma AddedOwner(s: State, s': State, o: Owner)
    requires forall p :: p in s.owners ==> p < s.nextPid
    requires s'.owners == s.owners[s.nextPid := o]
    ensures OwnedTasks(s') == OwnedTasks(s) + {o.task}
  {
    forall i | i in OwnedTasks(s) ensures i in OwnedTasks(s') {
      var q :| q in s.owners && s.owners[q].task == i;
      assert q in s'.owners && s'.owners[q].task == i;
    }
    assert s'.owners[s.nextPid].task == o.task;
  }

  lemma RestagedOwner(s: State, s': State, p: Pid, stage: Stage)
    requires p in s.owners && s'.owners == s.owners[p := s.owners[p].(stage := stage)]
    ensures OwnedTasks(s') == OwnedTasks(s)
  {
    assert s'.owners.Keys == s.owners.Keys;
    assert forall q :: q in s.owners ==> s'.owners[q].task == s.owners[q].task;
    forall i | i in OwnedTasks(s) ensures i in OwnedTasks(s') {
      var q :| q in s.owners && s.owners[q].task == i;
      assert q in s'.owners && s'.owners[q].task == i;
    }
  }

  lemma DroppedOwner(s: State, s': State, p: Pid)
    requires SingleOwner(s) && p in s.owners && s'.owners == s.owners - {p}
    ensures OwnedTasks(s') == OwnedTasks(s) - {s.owners[p].task}
  {
    forall i | i in OwnedTasks(s) && i != s.owners[p].task ensures i in OwnedTasks(s') {
      var q :| q in s.owners && s.owners[q].task == i;
      assert q in s'.owners && s'.owners[q].task == i;
    }
  }

  // The facts OwnerOk speaks about are the same in both states.
  ghost predicate SameView(c: Config, s: State, s': State, o: Owner) {
    && o.task in s.tiers.redis && o.task in s'.tiers.redis
    && s'.tiers.redis[o.task] == s.tiers.redis[o.task]
    && (o.task in s.locks ==> o.task in s'.locks && s'.locks[o.task] == s.locks[o.task])
    && s.now <= s'.now
    && (AwaitsRunningWrite(o) ==> s'.now <= ClaimTime(o) + c.writeDelay)
  }

  lemma KeptOwner(c: Config, s: State, s': State, o: Owner)
    requires OwnerOk(c, s, o) && SameView(c, s, s', o)
    ensures OwnerOk(c, s', o)
  {
  }

  lemma KeptOwners(c: Config, s: State, s': State)
    requires OwnersOk(c, s) && s'.owners == s.owners && s'.nextPid == s.nextPid
    requires forall p :: p in s.owners ==> SameView(c, s, s', s.owners[p])
    ensures OwnersOk(c, s')
  {
    forall p | p in s'.owners ensures OwnerOk(c, s', s'.owners[p]) {
      KeptOwner(c, s, s', s.owners[p]);
    }
  }

  lemma OneOwnerChanged(c: Config, s: State, s': State, p: Pid)
    requires OwnersOk(c, s) && p < s'.nextPid && s.nextPid <= s'.nextPid
    requires s'.owners - {p} == s.owners - {p}
    requires forall q :: q in s.owners && q != p ==> SameView(c, s, s', s.owners[q])
    requires p in s'.owners ==> OwnerOk(c, s', s'.owners[p])
    requires p in s'.owners && p in s.owners ==> s'.owners[p].task == s.owners[p].task
    requires p in s'.owners && p !in s.owners ==> !HasOwner(s, s'.owners[p].task)
    ensures OwnersOk(c, s')
  {
    forall q | q in s'.owners ensures q < s'.nextPid && OwnerOk(c, s', s'.owners[q]) {
      if q != p {
        assert q in s'.owners - {p};
        assert q in s.owners && s'.owners[q] == (s'.owners - {p})[q] == s.owners[q];
        KeptOwner(c, s, s', s.owners[q]);
      }
    }
    forall q, r | q in s'.owners && r in s'.owners && s'.owners[q].task == s'.owners[r].task ensures q == r {
      if q != p {
        assert q in s'.owners - {p} && (s'.owners - {p})[q] == s'.owners[q] && q in s.owners;
      }
      if r != p {
        assert r in s'.owners - {p} && (s'.owners - {p})[r] == s'.owners[r] && r in s.owners;
      }
    }
  }

  // ----- sightings and running tasks -----

  lemma KeptSightings(c: Config, s: State, s': State)
    requires SightingsOk(c, s) && s'.sightings == s.sightings
    requires s.now <= s'.now && s.history.Keys <= s'.history.Keys
    requires forall id :: LockExpiry(s, id) <= LockExpiry(s', id)
    requires forall r :: r in s.sightings && Usable(c, s', r)
                         && StatusIs(s, r.task, WaitingForLlm) && !HasOwner(s, r.task)
                         ==> StatusIs(s', r.task, WaitingForLlm) && !HasOwner(s', r.task)
    ensures SightingsOk(c, s')
  {
    forall r | r in s'.sightings ensures SightingOk(c, s', r) {
      assert SightingOk(c, s, r);
      assert LockExpiry(s, r.task) <= LockExpiry(s', r.task);
    }
  }

  lemma KeptRunning(s: State, s': State)
    requires RunningOwned(s)
    requires forall id :: StatusIs(s', id, Running) ==> StatusIs(s, id, Running) || HasOwner(s', id)
    requires forall id :: StatusIs(s', id, Running) && HasOwner(s, id) ==> HasOwner(s', id)
    ensures RunningOwned(s')
  {
  }

  // ----- ownership: one lemma per kind of step -----

  // A step that leaves owners, locks, history and the sightings alone, and changes no live record.
  lemma QuietStep(c: Config, s: State, s': State)
    requires OwnershipOk(c, s)
    requires s'.owners == s.owners && s'.nextPid == s.nextPid && s'.locks == s.locks && s'.history == s.history
    requires s'.sightings == s.sightings && s.now <= s'.now
    requires forall id :: id in s.tiers.redis && IsActive(s.tiers.redis[id]) ==> id in s'.tiers.redis
    requires forall id :: id in s'.tiers.redis ==> id in s.tiers.redis && s'.tiers.redis[id] == s.tiers.redis[id]
    requires forall p :: p in s.owners && AwaitsRunningWrite(s.owners[p]) ==>
             s'.now <= ClaimTime(s.owners[p]) + c.writeDelay
    ensures OwnershipOk(c, s')
  {
    forall p | p in s.owners ensures SameView(c, s, s', s.owners[p]) {
      assert OwnerOk(c, s, s.owners[p]);
    }
    KeptOwners(c, s, s');
    assert OwnedTasks(s') == OwnedTasks(s);
    KeptRunning(s, s');
    KeptSightings(c, s, s');
  }

  lemma QuietEvents(c: Config, s: State, e: Event)
    requires OwnershipOk(c, s) && Enabled(c, s, e) && Timely(c, s, e)
    requires e.Tick? || e.Evict? || e.ScanStart? || e.ScanRead? || e.Reject?
    ensures OwnershipOk(c, Apply(s, e))
  {
    assert forall p :: p in s.owners ==> OwnerOk(c, s, s.owners[p]);
    QuietStep(c, s, Apply(s, e));
  }

  lemma SnapshotOwnership(c: Config, s: State, id: TaskId, r: Record)
    requires OwnershipOk(c, s) && StatusIs(s, id, WaitingForLlm) && id in s.history
    ensures OwnershipOk(c, Apply(s, Snapshot(id, r)))
  {
    var s' := Apply(s, Snapshot(id, r));
    assert forall p :: p in s.owners ==> OwnerOk(c, s, s.owners[p]);
    QuietStep(c, s, s'.(sightings := s.sightings));
    FreshSightingOk(c, s, id);
    assert OwnedTasks(s') == OwnedTasks(s);
    KeptRunning(s, s');
    KeptOwners(c, s, s');
    forall w | w in s'.sightings ensures SightingOk(c, s', w) {
      assert w in s.sightings ==> SightingOk(c, s, w);
    }
  }

  // A task seen waiting has no owner, or its claimer's lock outlives every timely use of the sighting.
  lemma FreshSightingOk(c: Config, s: State, id: TaskId)
    requires OwnersOk(c, s) && StatusIs(s, id, WaitingForLlm) && id in s.history
    ensures SightingOk(c, s, Sighting(id, s.now))
  {
    if HasOwner(s, id) {
      var p :| p in s.owners && s.owners[p].task == id;
      assert OwnerOk(c, s, s.owners[p]);
    }
  }

  // An owner moving to another stage that fits the same record.
  lemma RestageOwnership(c: Config, s: State, p: Pid, stage: Stage)
    requires OwnershipOk(c, s) && p in s.owners
    requires OwnerOk(c, s, s.owners[p].(stage := stage))
    ensures OwnershipOk(c, AtStage(s, p, stage))
  {
    var s' := AtStage(s, p, stage);
    RestagedOwner(s, s', p, stage);
    forall q | q in s.owners && q != p ensures SameView(c, s, s', s.owners[q]) {
      assert OwnerOk(c, s, s.owners[q]);
    }
    assert OwnerOk(c, s', s'.owners[p]) by {
      KeptOwner(c, s, s', s'.owners[p]);
    }
    assert s'.owners - {p} == s.owners - {p};
    OneOwnerChanged(c, s, s', p);
    KeptRunning(s, s');
    KeptSightings(c, s, s');
  }

  lemma StageEvents(c: Config, s: State, e: Event)
    requires OwnershipOk(c, s) && Enabled(c, s, e) && (e.Enqueued? || e.Pick?)
    ensures OwnershipOk(c, Apply(s, e))
  {
    var stage := if e.Enqueued? then Queued else Executing;
    assert OwnerOk(c, s, s.owners[e.pid]);
    assert OwnerOk(c, s, s.owners[e.pid].(stage := stage));
    RestageOwnership(c, s, e.pid, stage);
  }

  lemma BeginWriteOwnership(c: Config, s: State, p: Pid, patch: Record)
    requires OwnershipOk(c, s) && p in s.owners && MayWrite(s.owners[p].stage, patch)
    ensures OwnershipOk(c, Apply(s, BeginWrite(p, patch)))
  {
    var o := s.owners[p];
    assert OwnerOk(c, s, o);
    MayWriteUpdates(o.stage, patch);
    var w := Writing(Lookup(s.tiers, o.task), patch, if o.stage.Claimed? then Drain(o.stage.claimedAt) else Release);
    assert OwnerOk(c, s, o.(stage := w));
    RestageOwnership(c, s, p, w);
  }

  lemma MayWriteUpdates(stage: Stage, patch: Record)
    requires MayWrite(stage, patch)
    ensures IsUpdate(patch) && (HasStatus(patch, Running) <==> stage.Claimed?)
  {
  }

  lemma ClaimOwnership(c: Config, s: State, id: TaskId, at: Time)
    requires OwnershipOk(c, s)
    requires Sighting(id, at) in s.sightings && LockFree(s.locks, id, s.now)
    requires s.now + c.writeDelay < at + DRAIN_LOCK_TTL
    ensures OwnershipOk(c, Apply(s, Claim(id, at)))
  {
    var s' := Apply(s, Claim(id, at));
    assert SightingOk(c, s, Sighting(id, at)) && Usable(c, s, Sighting(id, at));
    AddedOwner(s, s', Owner(id, Claimed(s.now)));
    forall q | q in s.owners ensures SameView(c, s, s', s.owners[q]) {
      assert OwnerOk(c, s, s.owners[q]);
      assert s.owners[q].task != id;
    }
    assert s'.owners - {s.nextPid} == s.owners - {s.nextPid};
    OneOwnerChanged(c, s, s', s.nextPid);
    assert forall r :: r in s.sightings && r.task == id ==> SightingOk(c, s, r) && !Usable(c, s', r);
    KeptSightings(c, s, s');
    KeptRunning(s, s');
  }

  // A brand-new task's first record is stored as the API built it.
  lemma CreatedRecord(s: State, id: TaskId, q: Request)
    requires s.admission.Some? && Lookup(s.tiers, id).None?
    ensures var r := CreationRecord(id, s.admission.value.tenant, q, s.now);
            Apply(s, Create(id, q)).tiers == Tiers(s.tiers.redis[id := r], s.tiers.disk)
  {
    var r := CreationRecord(id, s.admission.value.tenant, q, s.now);
    assert map[] + r == r;
  }

  lemma CreateOwnership(c: Config, s: State, s': State, id: TaskId, r: Record)
    requires OwnershipOk(c, s) && id !in s.history && HasStatus(r, Running)
    requires s.tiers.redis.Keys <= s.history.Keys
    requires s' == s.(tiers := Tiers(s.tiers.redis[id := r], s.tiers.disk),
                      owners := s.owners[s.nextPid := Owner(id, ApiEnqueue)],
                      nextPid := s.nextPid + 1,
                      admission := None,
                      history := s.history[id := [r]])
    ensures OwnershipOk(c, s')
  {
    AddedOwner(s, s', Owner(id, ApiEnqueue));
    forall q | q in s.owners ensures SameView(c, s, s', s.owners[q]) && s.owners[q].task != id {
      assert OwnerOk(c, s, s.owners[q]);
    }
    assert s'.owners - {s.nextPid} == s.owners - {s.nextPid};
    OneOwnerChanged(c, s, s', s.nextPid);
    assert forall r :: r in s.sightings ==> SightingOk(c, s, r) && r.task != id;
    KeptSightings(c, s, s');
    KeptRunning(s, s');
  }

  lemma CommitOwnership(c: Config, s: State, p: Pid)
    requires OwnershipOk(c, s) && p in s.owners && s.owners[p].stage.Writing?
    ensures OwnershipOk(c, Apply(s, CommitWrite(p)))
  {
    var s' := Apply(s, CommitWrite(p));
    var id, w := s.owners[p].task, s.owners[p].stage;
    assert OwnerOk(c, s, s.owners[p]);
    var merged := s'.tiers.redis[id];
    assert merged[StatusKey] == w.patch[StatusKey];
    WrittenOwnership(c, s, s', p, merged);
  }

  // A write ends ownership, or (after a claim) makes the task running under the same owner.
  ghost predicate WriteBy(s: State, s': State, p: Pid, merged: Record)
    requires p in s.owners
  {
    var id := s.owners[p].task;
    && s'.tiers.redis == s.tiers.redis[id := merged]
    && s'.history.Keys == s.history.Keys + {id}
    && s'.owners == (if HasStatus(merged, Running) then s.owners[p := Owner(id, SupervisorEnqueue)] else s.owners - {p})
    && s'.now == s.now && s'.locks == s.locks && s'.nextPid == s.nextPid && s'.sightings == s.sightings
  }

  lemma WrittenOwners(c: Config, s: State, s': State, p: Pid, merged: Record)
    requires OwnersOk(c, s) && p in s.owners && WriteBy(s, s', p, merged)
    ensures OwnersOk(c, s')
    ensures OwnedTasks(s') == if HasStatus(merged, Running) then OwnedTasks(s) else OwnedTasks(s) - {s.owners[p].task}
  {
    if p !in s'.owners {
      DroppedOwner(s, s', p);
    } else {
      RestagedOwner(s, s', p, SupervisorEnqueue);
    }
    forall q | q in s.owners && q != p ensures SameView(c, s, s', s.owners[q]) {
      assert OwnerOk(c, s, s.owners[q]);
      assert s.owners[q].task != s.owners[p].task;
    }
    assert s'.owners - {p} == s.owners - {p};
    OneOwnerChanged(c, s, s', p);
  }

  lemma WrittenOwnership(c: Config, s: State, s': State, p: Pid, merged: Record)
    requires OwnershipOk(c, s) && p in s.owners && WriteBy(s, s', p, merged)
    ensures OwnershipOk(c, s')
  {
    WrittenOwners(c, s, s', p, merged);
    assert HasOwner(s, s.owners[p].task);
    KeptSightings(c, s, s');
    KeptRunning(s, s');
  }

  // ----- the store -----

  lemma StoreKeysIssued(s: State)
    requires StoreOk(s)
    ensures s.tiers.redis.Keys <= s.history.Keys && s.tiers.disk.Keys <= s.history.Keys
  {
    assert forall i :: i in s.tiers.redis ==> RecordOk(s, i, s.tiers.redis[i]);
    assert forall i :: i in s.tiers.disk ==> RecordOk(s, i, s.tiers.disk[i]);
  }

  // Records whose history did not change stay in order.
  lemma KeptRecords(s: State, s': State, changed: set<TaskId>)
    requires StoreOk(s)
    requires forall i :: i !in changed && i in s.history ==> i in s'.history && s'.history[i] == s.history[i]
    requires forall i :: i !in changed && i in s'.tiers.redis ==>
               i in s.tiers.redis && s'.tiers.redis[i] == s.tiers.redis[i]
    requires forall i :: i !in changed && i in s'.tiers.disk ==>
               i in s.tiers.disk && s'.tiers.disk[i] == s.tiers.disk[i]
    requires forall i :: i !in changed && i in s.tiers.disk ==> i in s'.tiers.disk
    requires forall i :: i in changed && i in s'.tiers.redis ==> RecordOk(s', i, s'.tiers.redis[i])
    requires forall i :: i in changed && i in s'.tiers.disk ==>
               RecordOk(s', i, s'.tiers.disk[i]) && HasStatus(s'.tiers.disk[i], Completed)
    requires forall i :: i in changed && StatusIs(s', i, Completed) ==> i in s'.tiers.disk
    ensures StoreOk(s')
  {
    forall i | i in s'.tiers.redis ensures RecordOk(s', i, s'.tiers.redis[i]) {
      assert i !in changed ==> RecordOk(s, i, s.tiers.redis[i]);
    }
    forall i | i in s'.tiers.disk ensures RecordOk(s', i, s'.tiers.disk[i]) && HasStatus(s'.tiers.disk[i], Completed) {
      assert i !in changed ==> RecordOk(s, i, s.tiers.disk[i]);
    }
    forall i | StatusIs(s', i, Completed) ensures i in s'.tiers.disk {
      assert i !in changed ==> StatusIs(s, i, Completed);
    }
  }

  lemma FirstRecord(s': State, id: TaskId, r: Record)
    requires id in s'.history && s'.history[id] == [r] && IDENTITY <= r.Keys && HasStatus(r, Running)
    ensures RecordOk(s', id, r)
  {
    assert [r][..0] == [] && map[] + r == r;
    assert TaskIdKey in IDENTITY;
  }

  lemma CreateStore(s: State, s': State, id: TaskId, r: Record)
    requires StoreOk(s) && id !in s.history && IDENTITY <= r.Keys && HasStatus(r, Running)
    requires s'.tiers == Tiers(s.tiers.redis[id := r], s.tiers.disk) && s'.history == s.history[id := [r]]
    ensures StoreOk(s')
  {
    StoreKeysIssued(s);
    FirstRecord(s', id, r);
    KeptRecords(s, s', {id});
  }

  // One more status update folded in.
  lemma ExtendedRecord(s: State, s': State, id: TaskId, r: Record, patch: Record)
    requires RecordOk(s, id, r) && IsUpdate(patch)
    requires id in s'.history && s'.history[id] == s.history[id] + [patch]
    ensures RecordOk(s', id, Merge(Some(r), id, patch))
  {
    var h := s'.history[id];
    assert h[..|h| - 1] == s.history[id];
    assert Merge(Some(r), id, patch) == Fold(id, h);
  }

  // A task whose live record is unfinished has no durable copy yet.
  lemma UnfinishedNotOnDisk(s: State, id: TaskId)
    requires StoreOk(s) && id in s.tiers.redis && IsActive(s.tiers.redis[id])
    ensures id !in s.tiers.disk
  {
    assert RecordOk(s, id, s.tiers.redis[id]);
    assert id in s.tiers.disk ==> RecordOk(s, id, s.tiers.disk[id]);
  }

  lemma WriteStore(s: State, s': State, id: TaskId, merged: Record)
    requires StoreOk(s) && id in s.tiers.redis && IsActive(s.tiers.redis[id]) && RecordOk(s', id, merged)
    requires s'.tiers == Put(s.tiers, id, merged)
    requires forall i :: i != id && i in s.history ==> i in s'.history && s'.history[i] == s.history[i]
    ensures StoreOk(s')
  {
    UnfinishedNotOnDisk(s, id);
    KeptRecords(s, s', {id});
  }

  lemma CommitStore(c: Config, s: State, p: Pid)
    requires OwnersOk(c, s) && StoreOk(s) && p in s.owners && s.owners[p].stage.Writing?
    ensures StoreOk(Apply(s, CommitWrite(p)))
  {
    var s' := Apply(s, CommitWrite(p));
    var id, w := s.owners[p].task, s.owners[p].stage;
    assert OwnerOk(c, s, s.owners[p]);
    var r := s.tiers.redis[id];
    assert RecordOk(s, id, r);
    ExtendedRecord(s, s', id, r, w.patch);
    WriteStore(s, s', id, Merge(Some(r), id, w.patch));
  }

  lemma QuietStore(s: State, s': State)
    requires StoreOk(s) && s'.history == s.history && s'.tiers.disk == s.tiers.disk
    requires forall i :: i in s'.tiers.redis ==> i in s.tiers.redis && s'.tiers.redis[i] == s.tiers.redis[i]
    ensures StoreOk(s')
  {
    KeptRecords(s, s', {});
  }

  lemma AdmittedStore(c: Config, s: State, id: TaskId, q: Request)
    requires StoreOk(s) && Enabled(c, s, Create(id, q))
    ensures StoreOk(Apply(s, Create(id, q)))
  {
    StoreKeysIssued(s);
    CreatedRecord(s, id, q);
    CreateStore(s, Apply(s, Create(id, q)), id, CreationRecord(id, s.admission.value.tenant, q, s.now));
  }

  lemma StepStore(c: Config, s: State, e: Event)
    requires OwnersOk(c, s) && StoreOk(s) && Enabled(c, s, e)
    ensures StoreOk(Apply(s, e))
  {
    match e
    case Create(id, q) => AdmittedStore(c, s, id, q);
    case CommitWrite(p) => CommitStore(c, s, p);
    case _ => QuietStore(s, Apply(s, e));
  }

  // ----- concurrency slots -----

  // Steps that create no task and activate none keep the admission count and the caps.
  lemma FewerSlots(c: Config, s: State, s': State)
    requires SlotsOk(c, s) && s'.admission == s.admission
    requires forall t :: OccupiedBy(s'.tiers, t) <= OccupiedBy(s.tiers, t)
    ensures SlotsOk(c, s')
  {
    forall t ensures |OccupiedBy(s'.tiers, t)| <= c.cap(t) {
      SubsetIsSmaller(OccupiedBy(s'.tiers, t), OccupiedBy(s.tiers, t));
    }
    if s.admission.Some? {
      var a := s.admission.value;
      SubsetIsSmaller(OccupiedBy(s'.tiers, a.tenant) * a.visited, OccupiedBy(s.tiers, a.tenant) * a.visited);
    }
  }

  lemma AdmissionSlots(s: State, e: Event)
    requires AdmissionOk(s) && (e.ScanStart? || e.ScanRead? || e.Reject?)
    ensures AdmissionOk(Apply(s, e))
  {
    var s' := Apply(s, e);
    if e.ScanStart? {
      assert OccupiedBy(s.tiers, e.tenant) * {} == {};
    } else if e.ScanRead? && s.admission.Some? {
      var a, a' := s.admission.value, s'.admission.value;
      var before, after := OccupiedBy(s.tiers, a.tenant) * a.visited, OccupiedBy(s.tiers, a.tenant) * a'.visited;
      if e.scanned in OccupiedBy(s.tiers, a.tenant) {
        SubsetIsSmaller(after, before + {e.scanned});
      } else {
        assert after == before;
      }
    }
  }

  // The scan's count bounds the occupied slots at the moment of creation, although it is no snapshot.
  lemma CountBoundsSlots(s: State)
    requires AdmissionOk(s) && ScanComplete(s)
    ensures |OccupiedBy(s.tiers, s.admission.value.tenant)| <= s.admission.value.count
  {
    var a := s.admission.value;
    assert OccupiedBy(s.tiers, a.tenant) == OccupiedBy(s.tiers, a.tenant) * a.visited;
  }

  lemma CreateSlots(c: Config, s: State, s': State, id: TaskId, tenant: TenantId, r: Record)
    requires CapOk(c, s) && |OccupiedBy(s.tiers, tenant)| < c.cap(tenant)
    requires s'.tiers.redis == s.tiers.redis[id := r] && OwnedBy(r, tenant)
    ensures CapOk(c, s')
  {
    forall t ensures |OccupiedBy(s'.tiers, t)| <= c.cap(t) {
      if t == tenant {
        SubsetIsSmaller(OccupiedBy(s'.tiers, t), OccupiedBy(s.tiers, t) + {id});
      } else {
        SubsetIsSmaller(OccupiedBy(s'.tiers, t), OccupiedBy(s.tiers, t));
      }
    }
  }

  // No write occupies a new slot: the writer's task was active already, and keeps its tenant.
  lemma CommitSlots(c: Config, s: State, p: Pid)
    requires OwnersOk(c, s) && p in s.owners && s.owners[p].stage.Writing?
    ensures forall t :: OccupiedBy(Apply(s, CommitWrite(p)).tiers, t) <= OccupiedBy(s.tiers, t)
  {
    assert OwnerOk(c, s, s.owners[p]);
  }

  lemma AdmittedSlots(c: Config, s: State, id: TaskId, q: Request)
    requires StoreOk(s) && SlotsOk(c, s) && Enabled(c, s, Create(id, q))
    ensures SlotsOk(c, Apply(s, Create(id, q)))
  {
    StoreKeysIssued(s);
    CreatedRecord(s, id, q);
    CountBoundsSlots(s);
    var t := s.admission.value.tenant;
    CreateSlots(c, s, Apply(s, Create(id, q)), id, t, CreationRecord(id, t, q, s.now));
  }

  lemma WrittenSlots(c: Config, s: State, p: Pid)
    requires OwnersOk(c, s) && SlotsOk(c, s) && Enabled(c, s, CommitWrite(p))
    ensures SlotsOk(c, Apply(s, CommitWrite(p)))
  {
    CommitSlots(c, s, p);
    FewerSlots(c, s, Apply(s, CommitWrite(p)));
  }

  lemma StepSlots(c: Config, s: State, e: Event)
    requires OwnersOk(c, s) && StoreOk(s) && SlotsOk(c, s) && Enabled(c, s, e)
    ensures SlotsOk(c, Apply(s, e))
  {
    match e
    case Create(id, q) => AdmittedSlots(c, s, id, q);
    case ScanStart(_) => AdmissionSlots(s, e);
    case ScanRead(_) => AdmissionSlots(s, e);
    case Reject => AdmissionSlots(s, e);
    case CommitWrite(p) => WrittenSlots(c, s, p);
    case _ => FewerSlots(c, s, Apply(s, e));
  }

  // ----- the invariant holds in every reachable state -----

  lemma StepOwnership(c: Config, s: State, e: Event)
    requires OwnershipOk(c, s) && StoreOk(s) && Enabled(c, s, e) && Timely(c, s, e)
    ensures OwnershipOk(c, Apply(s, e))
  {
    match e
    case Snapshot(id, r) =>
      StoreKeysIssued(s);
      SnapshotOwnership(c, s, id, r);
    case Claim(id, at) => ClaimOwnership(c, s, id, at);
    case Create(id, q) =>
      StoreKeysIssued(s);
      CreatedRecord(s, id, q);
      CreateOwnership(c, s, Apply(s, e), id, CreationRecord(id, s.admission.value.tenant, q, s.now));
    case CommitWrite(p) => CommitOwnership(c, s, p);
    case Enqueued(_) => StageEvents(c, s, e);
    case Pick(_) => StageEvents(c, s, e);
    case BeginWrite(p, patch) => BeginWriteOwnership(c, s, p, patch);
    case Load(_, _) =>
    case PassOver(_) =>
    case Refused(_) =>
    case _ => QuietEvents(c, s, e);
  }

  lemma StepInv(c: Config, s: State, e: Event)
    requires Inv(c, s) && Enabled(c, s, e) && Timely(c, s, e)
    ensures Inv(c, Apply(s, e))
  {
    StepOwnership(c, s, e);
    StepStore(c, s, e);
    StepSlots(c, s, e);
  }

  lemma InitialInv(c: Config)
    requires c.writeDelay < DRAIN_LOCK_TTL
    ensures Inv(c, Initial())
  {
    assert forall t :: OccupiedBy(Initial().tiers, t) == {};
  }

  lemma {:induction false} RunInv(c: Config, s: State, es: seq<Event>)
    requires Inv(c, s) && Run(c, s, es)
    ensures Inv(c, Exec(s, es))
    decreases |es|
  {
    if es != [] {
      StepInv(c, s, es[0]);
      RunInv(c, Apply(s, es[0]), es[1..]);
    }
  }
}
