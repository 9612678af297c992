/** What the controller promises over every run: the order of its commits, the scope they are
    bound to, the life of a checkpoint, and what happens to the Secret. */
module ProtocolTheorems {
  import opened Results
  import opened Credentials
  import opened Objects
  import opened Lifecycle
  import opened Checkpoint
  import opened Ownership
  import opened Runner
  import opened RunnerSafety
  import opened Protocol
  import opened Evolution
  import opened Invariants
  import opened Preservation
  import opened StepSafety
  import opened Execution
  import ApiErrors

  // ---------- write-ahead order ----------

  /** Positions in the trace, in the order the protocol demands. */
  datatype Steps = Steps(cleaned: nat, started: nat, sent: nat, confirmed: nat, recorded: nat)

  /** A complete cleanup of exactly the inputs the record binds. */
  ghost predicate CleansFor(operatorDefault: string, e: Event, uid: string, s: State) {
    && e.Cleaned? && e.obs.uid == uid == s.clusterUID
    && ClusterNameFor(e.obs) == s.clusterName && VolumesPolicyFor(operatorDefault, e.obs) == s.volumesPolicy
    && e.secret.uid == s.secretUID && e.secret.name == s.secretName && e.binding == s.cloud
    && Drained(e.inv, Request(s.clusterName, s.volumesPolicy == POLICY_DELETE))
  }

  /** Before position `k`: a complete cleanup and, in the same reconcile, the committed first
      phase; then the credential DELETE for the recorded ID in a session bound as recorded; an
      answer that confirms it, 204 or 404 with no failed reauthentication; and, by the reconcile that got that answer, the committed second phase. */
  ghost predicate WriteAhead(operatorDefault: string, tr: seq<Event>, k: nat, at: Steps, uid: string, s: State) {
    var begun := s.(phase := STARTED);
    && s.phase == CONFIRMED && at.cleaned < at.started < at.sent < at.confirmed < at.recorded < k <= |tr|
    && CleansFor(operatorDefault, tr[at.cleaned], uid, s)
    && tr[at.started] == Saved(tr[at.cleaned].id, uid, begun)
    && tr[at.sent] == CredentialDeleteSent(tr[at.sent].id, uid, begun, s.cloud)
    && tr[at.confirmed].CredentialDeleteConfirmed? && ApiErrors.Confirms(tr[at.confirmed].answer)
    && tr[at.confirmed] == CredentialDeleteConfirmed(tr[at.sent].id, uid, begun, s.cloud, tr[at.confirmed].answer)
    && tr[at.recorded] == Saved(tr[at.sent].id, uid, s)
  }

  lemma EarlierEvent(operatorDefault: string, tr: seq<Event>, k: nat, e: Event) returns (i: nat)
    requires TraceJustified(operatorDefault, tr) && k <= |tr| && e in tr[..k]
    ensures i < k && tr[i] == e && Justified(operatorDefault, tr[..i], e)
  {
    hide Justified;
    i :| 0 <= i < k && tr[..k][i] == e;
  }

  lemma CleanedBefore(operatorDefault: string, tr: seq<Event>, k: nat, id: nat, uid: string, s: State) returns (i: nat)
    requires TraceJustified(operatorDefault, tr) && k <= |tr| && CleanedForState(operatorDefault, tr[..k], id, uid, s)
    ensures i < k && CleansFor(operatorDefault, tr[i], uid, s) && tr[i].id == id
  {
    hide TraceJustified, Drained;
    var obs, secret, b :| CleanedBy(tr[..k], id, obs, secret, b)
      && obs.uid == uid == s.clusterUID && ClusterNameFor(obs) == s.clusterName
      && VolumesPolicyFor(operatorDefault, obs) == s.volumesPolicy
      && secret.uid == s.secretUID && secret.name == s.secretName && b == s.cloud;
    var inv :| Cleaned(id, obs, secret, b, inv) in tr[..k];
    i := EarlierEvent(operatorDefault, tr, k, Cleaned(id, obs, secret, b, inv));
  }

  lemma StartedBefore(operatorDefault: string, tr: seq<Event>, k: nat, uid: string, s: State) returns (i: nat, j: nat)
    requires TraceJustified(operatorDefault, tr) && k <= |tr| && s.phase == STARTED && Recorded(tr[..k], uid, s)
    ensures i < j < k && CleansFor(operatorDefault, tr[i], uid, s) && tr[j] == Saved(tr[i].id, uid, s)
  {
    hide TraceJustified, CleansFor, IsValid, CleanedForState;
    var id :| Saved(id, uid, s) in tr[..k];
    j := EarlierEvent(operatorDefault, tr, k, Saved(id, uid, s));
    i := CleanedBefore(operatorDefault, tr, j, id, uid, s);
  }

  /** What comes before the commit of a second phase, whichever position it has. */
  lemma ConfirmedRecordIsWriteAhead(operatorDefault: string, tr: seq<Event>, k: nat, id: nat, uid: string, s: State)
    returns (at: Steps)
    requires TraceJustified(operatorDefault, tr) && k < |tr| && tr[k] == Saved(id, uid, s) && s.phase == CONFIRMED
    ensures WriteAhead(operatorDefault, tr, k + 1, at, uid, s) && at.recorded == k
  {
    hide CleansFor, IsValid, CleanedForState, Recorded;
    var begun := s.(phase := STARTED);
    assert Justified(operatorDefault, tr[..k], tr[k]);
    hide TraceJustified;
    var answer :| CredentialDeleteConfirmed(id, uid, begun, s.cloud, answer) in tr[..k];
    var confirmed := EarlierEvent(operatorDefault, tr, k, CredentialDeleteConfirmed(id, uid, begun, s.cloud, answer));
    var sent := EarlierEvent(operatorDefault, tr, confirmed, CredentialDeleteSent(id, uid, begun, s.cloud));
    var cleaned, started := StartedBefore(operatorDefault, tr, sent, uid, begun);
    CleansForEitherPhase(operatorDefault, tr[cleaned], uid, s);
    at := Steps(cleaned, started, sent, confirmed, k);
  }

  lemma RecordIsWriteAhead(operatorDefault: string, tr: seq<Event>, k: nat, uid: string, s: State) returns (at: Steps)
    requires TraceJustified(operatorDefault, tr) && k <= |tr| && s.phase == CONFIRMED && Recorded(tr[..k], uid, s)
    ensures WriteAhead(operatorDefault, tr, k, at, uid, s)
  {
    hide TraceJustified, CleansFor, Recorded, Justified;
    var id := RecordedBy(tr[..k], uid, s);
    var recorded := EarlierEvent(operatorDefault, tr, k, Saved(id, uid, s));
    at := ConfirmedRecordIsWriteAhead(operatorDefault, tr, recorded, id, uid, s);
  }

  lemma RecordedBy(past: seq<Event>, uid: string, s: State) returns (id: nat)
    requires Recorded(past, uid, s)
    ensures Saved(id, uid, s) in past
  {
    id :| Saved(id, uid, s) in past;
  }

  lemma CleansForEitherPhase(operatorDefault: string, e: Event, uid: string, s: State)
    requires CleansFor(operatorDefault, e, uid, s.(phase := STARTED))
    ensures CleansFor(operatorDefault, e, uid, s)
  {
  }

  /** Every reachable trace is justified, event by event. */
  lemma TraceIsJustified(run: seq<System>, i: nat)
    requires IsRun(run) && i < |run|
    ensures TraceJustified(run[i].world.operatorDefault, run[i].trace)
  {
    hide IsRun, StoreOk, RecordsAreStored, RecordsAgree, FinishedSecretsAreGone, TraceJustified, Wellformed, WorkerOk;
    RunsAreSafe(run, i);
  }

  lemma SavedBefore(operatorDefault: string, tr: seq<Event>, k: nat)
    requires TraceJustified(operatorDefault, tr) && k < |tr| && tr[k].Saved?
    ensures var e := tr[k];
      || (e.state.phase == STARTED && exists a :: 0 <= a < k && CleansFor(operatorDefault, tr[a], e.uid, e.state) && tr[a].id == e.id)
      || exists at :: WriteAhead(operatorDefault, tr, k + 1, at, e.uid, e.state) && at.recorded == k
  {
    hide CleansFor, CleanedForState, ConfirmedBy, WriteAhead;
    var e := tr[k];
    assert Justified(operatorDefault, tr[..k], e);
    ValidPhase(e.state);
    hide TraceJustified, IsValid;
    if e.state.phase == STARTED {
      var a := CleanedBefore(operatorDefault, tr, k, e.id, e.uid, e.state);
    } else {
      var at := ConfirmedRecordIsWriteAhead(operatorDefault, tr, k, e.id, e.uid, e.state);
    }
  }

  lemma ValidPhase(s: State)
    requires IsValid(s)
    ensures s.phase == STARTED || s.phase == CONFIRMED
  {
    hide ValidateBinding;
  }

  /** Write-ahead order, over every interleaving of workers, edits, crashes and lost responses. */
  lemma WriteAheadOrder(run: seq<System>, i: nat, k: nat)
    requires IsRun(run) && i < |run| && k < |run[i].trace|
    ensures var tr, op, e := run[i].trace, run[i].world.operatorDefault, run[i].trace[k];
      && (e.CredentialDeleteSent? ==>
            e.session == e.state.cloud && exists a, b :: 0 <= a < b < k && CleansFor(op, tr[a], e.uid, e.state)
                                                        && tr[b] == Saved(tr[a].id, e.uid, e.state))
      && (e.Saved? ==>
            || (e.state.phase == STARTED && exists a :: 0 <= a < k && CleansFor(op, tr[a], e.uid, e.state) && tr[a].id == e.id)
            || exists at :: WriteAhead(op, tr, k + 1, at, e.uid, e.state) && at.recorded == k)
      && (e.SecretDeleted? ==>
            (exists at :: WriteAhead(op, tr, k, at, e.uid, e.state)) && !FinishedWithCheckpoint(tr[..k], e.uid))
      && (e.FinalizerRemoved? && ReadCheckpoint(e.cluster).Good? ==>
            exists at :: WriteAhead(op, tr, k, at, e.cluster.uid, ReadCheckpoint(e.cluster).state))
  {
    TraceIsJustified(run, i);
    hide IsRun, CleansFor, WriteAhead, FinishedWithCheckpoint, Recorded, ReadCheckpoint, DescribeCredential, ConfigMatches,
         RequestsCredentialDeletion, IsValid, CleanedForState, CleanedScope, RecordedScope;
    var tr, op, e := run[i].trace, run[i].world.operatorDefault, run[i].trace[k];
    if e.Saved? {
      SavedBefore(op, tr, k);
    }
    assert Justified(op, tr[..k], tr[k]);
    hide TraceJustified;
    if e.CredentialDeleteSent? {
      var a, b := StartedBefore(op, tr, k, e.uid, e.state);
    }
    if e.SecretDeleted? {
      var at := RecordIsWriteAhead(op, tr, k, e.uid, e.state);
    }
    if e.FinalizerRemoved? && ReadCheckpoint(e.cluster).Good? {
      var at := RecordIsWriteAhead(op, tr, k, e.cluster.uid, ReadCheckpoint(e.cluster).state);
    }
  }

  // ---------- scope ----------

  /** A run of the cleanup that found, for this object's name and volumes policy, complete
      inventories with nothing owned left. */
  ghost predicate NothingLeftFor(operatorDefault: string, e: Event, c: Cluster) {
    && e.Cleaned? && e.obs.uid == c.uid
    && Drained(e.inv, Request(ClusterNameFor(c), VolumesPolicyFor(operatorDefault, c) == POLICY_DELETE))
  }

  /** From the finalizer down to OpenStack, on both paths: the name and policy the object has as
      its finalizer goes were cleaned completely. Without a checkpoint the same reconcile did
      it, for the same generation. */
  lemma FinalizerRemovalMeansNothingLeft(run: seq<System>, i: nat, k: nat)
    requires IsRun(run) && i < |run| && k < |run[i].trace| && run[i].trace[k].FinalizerRemoved?
    ensures var tr, op, c := run[i].trace, run[i].world.operatorDefault, run[i].trace[k].cluster;
      exists a :: 0 <= a < k && NothingLeftFor(op, tr[a], c)
        && (ReadCheckpoint(c).Absent? ==> tr[a].id == tr[k].id && tr[a].obs.generation == c.generation)
  {
    TraceIsJustified(run, i);
    hide IsRun, ReadCheckpoint, Drained, IsValid;
    var tr, op, c := run[i].trace, run[i].world.operatorDefault, run[i].trace[k].cluster;
    assert Justified(op, tr[..k], tr[k]);
    hide TraceJustified;
    if ReadCheckpoint(c).Good? {
      var s := ReadCheckpoint(c).state;
      var at := RecordIsWriteAhead(op, tr, k, c.uid, s);
      assert NothingLeftFor(op, tr[at.cleaned], c);
    } else {
      hide Recorded;
      var id := tr[k].id;
      var obs, secret, b :| CleanedBy(tr[..k], id, obs, secret, b) && SameScope(op, obs, c);
      var inv :| Cleaned(id, obs, secret, b, inv) in tr[..k];
      var a := EarlierEvent(op, tr, k, Cleaned(id, obs, secret, b, inv));
      assert NothingLeftFor(op, tr[a], c);
    }
  }

  /** A worker's identity stands for one reconcile: it is never given out again. */
  lemma {:induction false} ReconcilesAreDistinct(run: seq<System>, i: nat)
    requires IsRun(run) && i < |run|
    ensures forall id :: id in run[i].workers ==> id < run[i].nextID
    ensures forall e :: e in run[i].trace ==> e.id < run[i].nextID
  {
    hide EnvironmentStep, Step, InitialWorld;
    if i > 0 {
      ReconcilesAreDistinct(run, i - 1);
      var s, s' := run[i - 1], run[i - 1 + 1];
      assert Next(s, s');
      if id, reply :| Works(s, s', id, reply) {
        EventsCarryTheID(s.world, id, s.workers[id], reply);
      }
    }
  }

  lemma EventsCarryTheID(wd: World, id: nat, w: Worker, reply: Reply)
    requires !w.Done?
    ensures forall e :: e in Step(wd, id, w, reply).events ==> e.id == id
  {
    hide StepRead, AfterCleanup, RunSpec, Encode, PutCluster, RemoveSecret;
  }

  /** In the runner's terms: none of the listed resources is one the ownership rule selects. */
  lemma NothingLeftMeansNothingOwned(operatorDefault: string, e: Event, c: Cluster, kind: Kind, r: Resource)
    requires NothingLeftFor(operatorDefault, e, c) && r in e.inv.Of(kind)
    requires kind == Snapshots || kind == Volumes ==> VolumesPolicyFor(operatorDefault, c) == POLICY_DELETE
    ensures !Deletable(kind, r, ProtectedPorts(e.inv.loadBalancers, ClusterNameFor(c)), ClusterNameFor(c))
  {
    hide Preflight, Deletable;
    var ports := ProtectedPorts(e.inv.loadBalancers, ClusterNameFor(c));
    SelectedIff(kind, e.inv.Of(kind), ports, ClusterNameFor(c), r.id);
    assert !HasWork(kind, e.inv, Request(ClusterNameFor(c), VolumesPolicyFor(operatorDefault, c) == POLICY_DELETE));
  }

  /** The object an event commits to, if it is a patch of the object. */
  ghost predicate IsPatchOf(e: Event, c: Cluster) {
    match e
    case FinalizerRemoved(_, cluster) => cluster == c
    case FinalizerAdded(_, cluster) => cluster == c
    case Saved(_, uid, _) => uid == c.uid
    case _ => false
  }

  /** What each patch does to the object it finds, and what it found. */
  ghost predicate PatchCommits(wd: World, wd': World, e: Event, c: Cluster) {
    match e
    case FinalizerRemoved(_, _) =>
      && c.deleting && HasFinalizer(c) && (ReadCheckpoint(c).Good? ==> c.finalizers == [FINALIZER])
      && wd' == PutCluster(wd, c.(finalizers := RemoveFinalizer(c.finalizers)))
    case FinalizerAdded(_, _) =>
      && !c.deleting && !HasFinalizer(c)
      && wd' == PutCluster(wd, c.(finalizers := c.finalizers + [FINALIZER]))
    case Saved(_, _, s) =>
      && c.deleting && c.finalizers == [FINALIZER] && s.clusterUID == c.uid
      && wd' == PutCluster(wd, WithRecord(c, s))
    case _ => false
  }

  /** The commit instant: every patch is of the object stored at that step, as it is then, and
      changes nothing else. A record, and a removal on the checkpoint path, commits only while
      the Janitor's finalizer is the only one. */
  lemma PatchesCommitOnTheStoredObject(run: seq<System>, i: nat, id: nat, reply: Reply, e: Event)
    requires IsRun(run) && i + 1 < |run| && Works(run[i], run[i + 1], id, reply)
    requires e.FinalizerRemoved? || e.FinalizerAdded? || e.Saved?
    requires run[i + 1].trace == run[i].trace + [e]
    ensures exists c: Cluster ::
      IsPatchOf(e, c) && c.name in run[i].world.clusters && run[i].world.clusters[c.name] == c
      && PatchCommits(run[i].world, run[i + 1].world, e, c)
  {
    var s, w := run[i], run[i].workers[id];
    hide IsRun, Step;
    RunsAreSafe(run, i);
    var t := Step(s.world, id, w, reply);
    assert (s.trace + t.events)[|s.trace|..] == t.events && (s.trace + [e])[|s.trace|..] == [e];
    assert t.events == [e];
    hide Inv;
    WorkerIsOk(s, id);
    OnlyPatchesPatch(s.world, id, w, reply, e);
    hide SharedOk, WorkerOk;
    if w.SendPatch? {
      PatchStepCommits(s.world, s.trace, id, w, reply, e);
    } else {
      AdoptStepCommits(s.world, s.trace, id, w, reply, e);
    }
  }

  lemma OnlyPatchesPatch(wd: World, id: nat, w: Worker, reply: Reply, e: Event)
    requires !w.Done? && (e.FinalizerRemoved? || e.FinalizerAdded? || e.Saved?) && Step(wd, id, w, reply).events == [e]
    ensures w.SendPatch? || w.AdoptPatch?
  {
    hide StepRead, AfterCleanup, RemoveSecret, PutCluster, RunSpec;
  }

  lemma PatchStepCommits(wd: World, tr: seq<Event>, id: nat, w: Worker, reply: Reply, e: Event)
    requires SharedOk(wd, tr) && WorkerOk(wd, tr, id, w) && w.SendPatch? && Step(wd, id, w, reply).events == [e]
    ensures var c := w.latest;
      && IsPatchOf(e, c) && c.name in wd.clusters && wd.clusters[c.name] == c
      && PatchCommits(wd, Step(wd, id, w, reply).world, e, c)
  {
    hide SharedOk, ObsOk, SeenOk, GoalOk, ReadCheckpoint, PutCluster, Encode, RemoveFinalizer, Justified, ClusterNameFor, VolumesPolicyFor,
         RecordFits;
    LockedIsStored(wd, w.latest);
    SameInputsSameCheckpoint(wd.operatorDefault, w.obs, w.latest);
    if |w.latest.finalizers| == 1 {
      SoleFinalizer(w.latest);
    }
    if w.goal.Finish? {
      FinishGoalFacts(wd, tr, id, w.obs, w.seen, w.goal.sole);
    } else {
      SaveFits(wd, tr, id, w.obs, w.seen, w.goal.state, w.latest);
      FittingRecordIsBound(wd, w.latest, w.goal.state);
    }
  }

  lemma FittingRecordIsBound(wd: World, c: Cluster, s: State)
    requires RecordFits(wd, c, s)
    ensures s.clusterUID == c.uid
  {
    hide IsValid, ReadCheckpoint;
  }

  lemma AdoptStepCommits(wd: World, tr: seq<Event>, id: nat, w: Worker, reply: Reply, e: Event)
    requires WorkerOk(wd, tr, id, w) && w.AdoptPatch? && Step(wd, id, w, reply).events == [e]
    ensures var c := w.latest;
      && IsPatchOf(e, c) && c.name in wd.clusters && wd.clusters[c.name] == c
      && PatchCommits(wd, Step(wd, id, w, reply).world, e, c)
  {
    hide ReadCheckpoint, PutCluster;
    LockedIsStored(wd, w.latest);
  }

  // ---------- the life of a checkpoint ----------

  /** A snapshot stays one along a run. */
  lemma {:induction false} SnapshotAlongRun(run: seq<System>, i: nat, j: nat, c: Cluster)
    requires IsRun(run) && i <= j < |run| && IsSnapshot(run[i].world, c)
    ensures IsSnapshot(run[j].world, c)
    decreases j
  {
    if i < j {
      SnapshotAlongRun(run, i, j - 1, c);
      RunsAreSafe(run, j - 1);
      assert Next(run[j - 1], run[j - 1 + 1]);
      hide IsRun, Next, IsSnapshot, StoreOk, RecordsAreStored, RecordsAgree, FinishedSecretsAreGone, TraceJustified, WorkerOk,
           Evolves, Wellformed;
      NextKeepsInv(run[j - 1], run[j]);
      SnapshotsPersist(run[j - 1].world, run[j].world, c);
    }
  }

  lemma NextAddsAtMostTwo(s: System, s': System)
    requires Next(s, s')
    ensures s.trace <= s'.trace && |s'.trace| <= |s.trace| + 2
  {
    hide EnvironmentStep, Step;
    if id, reply :| Works(s, s', id, reply) {
      StepAddsAtMostTwo(s.world, id, s.workers[id], reply);
    }
  }

  lemma StepAddsAtMostTwo(wd: World, id: nat, w: Worker, reply: Reply)
    requires !w.Done?
    ensures |Step(wd, id, w, reply).events| <= 2
  {
    hide StepRead, AfterCleanup, RunSpec, Encode, PutCluster, RemoveSecret, ApiErrors.ClassifyApplicationCredentialDelete;
  }

  /** A record that is there was written, and at its second phase not in the same step as its
      first: of an object with no record before this step, it can only be the first phase. */
  lemma FirstRecordIsStarted(run: seq<System>, i: nat, m: string, n: string)
    requires IsRun(run) && i + 1 < |run| && m in run[i].world.clusters && n in run[i + 1].world.clusters
    requires run[i].world.clusters[m].uid == run[i + 1].world.clusters[n].uid
    requires !ReadCheckpoint(run[i].world.clusters[m]).Good? && ReadCheckpoint(run[i + 1].world.clusters[n]).Good?
    ensures ReadCheckpoint(run[i + 1].world.clusters[n]).state.phase == STARTED
  {
    hide ReadCheckpoint, IsRun, Inv, Next;
    RunsAreSafe(run, i);
    RunsAreSafe(run, i + 1);
    RunStep(run, i);
    FirstRecordOfStep(run[i], run[i + 1], m, n);
  }

  lemma FirstRecordOfStep(s: System, s': System, m: string, n: string)
    requires Inv(s) && Inv(s') && Next(s, s') && m in s.world.clusters && n in s'.world.clusters
    requires s.world.clusters[m].uid == s'.world.clusters[n].uid
    requires !ReadCheckpoint(s.world.clusters[m]).Good? && ReadCheckpoint(s'.world.clusters[n]).Good?
    ensures ReadCheckpoint(s'.world.clusters[n]).state.phase == STARTED
  {
    hide ReadCheckpoint, Inv, Next, CleansFor, TraceJustified, Recorded;
    NextAddsAtMostTwo(s, s');
    var st := StoredRecord(s', n);
    UnrecordedHasNoRecord(s, m);
    if st.phase == CONFIRMED {
      assert s'.trace[..|s'.trace|] == s'.trace;
      var at := RecordIsWriteAhead(s'.world.operatorDefault, s'.trace, |s'.trace|, s'.world.clusters[n].uid, st);
    }
  }

  lemma StoredRecord(s: System, n: string) returns (st: State)
    requires Inv(s) && n in s.world.clusters && ReadCheckpoint(s.world.clusters[n]).Good?
    ensures ReadCheckpoint(s.world.clusters[n]) == Good(st) && Recorded(s.trace, s.world.clusters[n].uid, st)
    ensures TraceJustified(s.world.operatorDefault, s.trace) && (st.phase == STARTED || st.phase == CONFIRMED)
  {
    hide ReadCheckpoint, WorkerOk, RecordsAreStored, RecordsAgree, FinishedSecretsAreGone, TraceJustified, Wellformed, IsValid;
    assert CheckpointOk(s.world, s.trace, s.world.clusters[n]);
    st := ReadCheckpoint(s.world.clusters[n]).state;
    GoodIsValid(s.world.clusters[n], st);
    ValidPhase(st);
  }

  lemma UnrecordedHasNoRecord(s: System, m: string)
    requires Inv(s) && m in s.world.clusters && !ReadCheckpoint(s.world.clusters[m]).Good?
    ensures forall id, st :: Saved(id, s.world.clusters[m].uid, st) !in s.trace
  {
    hide ReadCheckpoint, WorkerOk, StoreOk, RecordsAgree, FinishedSecretsAreGone, TraceJustified, Wellformed;
  }

  /** The object under this name had the same UID one step earlier, if the UID was known then. */
  lemma StoredBefore(run: seq<System>, i: nat, n: string)
    requires IsRun(run) && i + 1 < |run| && n in run[i + 1].world.clusters
    requires run[i + 1].world.clusters[n].uid in run[i].world.clusterUIDs
    ensures n in run[i].world.clusters && run[i].world.clusters[n].uid == run[i + 1].world.clusters[n].uid
  {
    hide IsRun, Next, Inv, CheckpointAdvances;
    RunsAreSafe(run, i);
    RunStep(run, i);
    NextKeepsInv(run[i], run[i + 1]);
  }

  /** The first phase of this record was stored, strictly between two states. */
  ghost predicate StartedBetween(run: seq<System>, i: nat, j: nat, uid: string, s: State) {
    exists h, x :: i < h < j && h < |run| && x in run[h].world.clusters && run[h].world.clusters[x].uid == uid
      && ReadCheckpoint(run[h].world.clusters[x]) == Good(s.(phase := STARTED))
  }

  /** From no record to the second phase leads only the first phase of the same record. */
  lemma {:induction false} PhasesInOrder(run: seq<System>, i: nat, j: nat, m: string, n: string)
    requires IsRun(run) && i <= j < |run| && m in run[i].world.clusters && n in run[j].world.clusters
    requires run[i].world.clusters[m].uid == run[j].world.clusters[n].uid
    requires !ReadCheckpoint(run[i].world.clusters[m]).Good? && ReadCheckpoint(run[j].world.clusters[n]).Good?
    requires ReadCheckpoint(run[j].world.clusters[n]).state.phase == CONFIRMED
    ensures StartedBetween(run, i, j, run[j].world.clusters[n].uid, ReadCheckpoint(run[j].world.clusters[n]).state)
    decreases j
  {
    hide ReadCheckpoint, IsRun, IsSnapshot;
    var c, c' := run[i].world.clusters[m], run[j].world.clusters[n];
    RunIsOneObject(run, i, m, n);
    if i < j {
      UIDStaysKnown(run, i, j - 1, m);
      StoredBefore(run, j - 1, n);
      var b := run[j - 1].world.clusters[n];
      if !ReadCheckpoint(b).Good? {
        FirstRecordIsStarted(run, j - 1, n, n);
        assert false;
      }
      StepAdvances(run, j - 1, n);
      var s := ReadCheckpoint(c').state;
      if ReadCheckpoint(b).state == s {
        PhasesInOrder(run, i, j - 1, m, n);
        var h, x :| i < h < j - 1 && h < |run| && x in run[h].world.clusters && run[h].world.clusters[x].uid == b.uid
          && ReadCheckpoint(run[h].world.clusters[x]) == Good(s.(phase := STARTED));
        assert i < h < j;
      } else {
        assert ReadCheckpoint(b) == Good(s.(phase := STARTED));
        if i == j - 1 {
          RunIsOneObject(run, i, m, n);
        }
      }
    }
  }

  /** A UID is stored under one name in one state. */
  lemma RunIsOneObject(run: seq<System>, i: nat, m: string, n: string)
    requires IsRun(run) && i < |run| && m in run[i].world.clusters
    ensures n in run[i].world.clusters && run[i].world.clusters[n].uid == run[i].world.clusters[m].uid ==> n == m
  {
    RunsAreSafe(run, i);
    hide IsRun, StoreOk, RecordsAreStored, RecordsAgree, FinishedSecretsAreGone, TraceJustified, WorkerOk;
  }

  lemma UIDStaysKnown(run: seq<System>, i: nat, j: nat, m: string)
    requires IsRun(run) && i <= j < |run| && m in run[i].world.clusters
    ensures run[i].world.clusters[m].uid in run[j].world.clusterUIDs
  {
    RunsAreSafe(run, i);
    hide IsRun, StoreOk, RecordsAreStored, RecordsAgree, FinishedSecretsAreGone, TraceJustified, WorkerOk, Later;
    StoredIsSnapshot(run[i].world, m);
    SnapshotAlongRun(run, i, j, run[i].world.clusters[m]);
  }

  lemma StepAdvances(run: seq<System>, i: nat, n: string)
    requires IsRun(run) && i + 1 < |run| && n in run[i].world.clusters && n in run[i + 1].world.clusters
    requires run[i].world.clusters[n].uid == run[i + 1].world.clusters[n].uid
    requires ReadCheckpoint(run[i].world.clusters[n]).Good?
    ensures ReadCheckpoint(run[i + 1].world.clusters[n]).Good?
    ensures Advances(ReadCheckpoint(run[i].world.clusters[n]).state, ReadCheckpoint(run[i + 1].world.clusters[n]).state)
  {
    hide ReadCheckpoint, IsRun;
    RecordsAdvance(run, i, i + 1, n, n);
  }

  lemma RecordsAdvance(run: seq<System>, i: nat, j: nat, m: string, n: string)
    requires IsRun(run) && i <= j < |run|
    requires m in run[i].world.clusters && n in run[j].world.clusters
    requires run[i].world.clusters[m].uid == run[j].world.clusters[n].uid
    ensures var before, after := ReadCheckpoint(run[i].world.clusters[m]), ReadCheckpoint(run[j].world.clusters[n]);
      && !before.Bad? && !after.Bad?
      && (before.Good? ==> after.Good? && Advances(before.state, after.state))
      && (before.Good? && after.state == before.state ==>
            CheckpointText(run[j].world.clusters[n]) == CheckpointText(run[i].world.clusters[m]))
  {
    RunsAreSafe(run, i);
    RunsAreSafe(run, j);
    var c, c' := run[i].world.clusters[m], run[j].world.clusters[n];
    assert CheckpointOk(run[j].world, run[j].trace, c') && CheckpointOk(run[i].world, run[i].trace, c);
    hide IsRun, WorkerOk, RecordsAreStored, RecordsAgree, FinishedSecretsAreGone, TraceJustified;
    StoredIsSnapshot(run[i].world, m);
    SnapshotAlongRun(run, i, j, c);
    assert CheckpointAdvances(c, c');
    hide Inv, IsSnapshot;
    AdvancedReading(c, c');
  }

  /** With any number of concurrent workers, what is recorded for a UID only moves from nothing
      to the first phase to the second, one after the other, and is otherwise frozen from its
      first commit. */
  lemma CheckpointMonotonicity(run: seq<System>, i: nat, j: nat, m: string, n: string)
    requires IsRun(run) && i <= j < |run|
    requires m in run[i].world.clusters && n in run[j].world.clusters
    requires run[i].world.clusters[m].uid == run[j].world.clusters[n].uid
    ensures var before, after := ReadCheckpoint(run[i].world.clusters[m]), ReadCheckpoint(run[j].world.clusters[n]);
      && !before.Bad? && !after.Bad?
      && (before.Good? ==> after.Good? && Advances(before.state, after.state))
      && (before.Good? && after.state == before.state ==>
            CheckpointText(run[j].world.clusters[n]) == CheckpointText(run[i].world.clusters[m]))
      && (before.Absent? && after.Good? && after.state.phase == CONFIRMED ==>
            StartedBetween(run, i, j, run[j].world.clusters[n].uid, after.state))
  {
    hide IsRun, ReadCheckpoint, CheckpointText, StartedBetween;
    RecordsAdvance(run, i, j, m, n);
    if ReadCheckpoint(run[i].world.clusters[m]).Absent? && ReadCheckpoint(run[j].world.clusters[n]).Good?
       && ReadCheckpoint(run[j].world.clusters[n]).state.phase == CONFIRMED {
      PhasesInOrder(run, i, j, m, n);
    }
  }

  lemma AdvancedReading(c: Cluster, c': Cluster)
    requires CheckpointAdvances(c, c') && !ReadCheckpoint(c).Bad?
    ensures ReadCheckpoint(c).Good? ==>
      ReadCheckpoint(c').Good? && Advances(ReadCheckpoint(c).state, ReadCheckpoint(c').state)
    ensures ReadCheckpoint(c).Good? && ReadCheckpoint(c') == ReadCheckpoint(c) ==> CheckpointText(c') == CheckpointText(c)
  {
    hide Decode, Encode;
    if ReadCheckpoint(c).Good? && CheckpointText(c') != CheckpointText(c) {
      GoodIsValid(c, ReadCheckpoint(c).state);
      ConfirmedIsValid(ReadCheckpoint(c).state);
      SelfAcceptance(ReadCheckpoint(c).state.(phase := CONFIRMED));
    }
  }

  /** All records of one UID agree on everything but the phase, whoever wrote them. */
  lemma RecordsOfOneUIDAgree(run: seq<System>, i: nat, a: nat, b: nat, uid: string, s: State, t: State)
    requires IsRun(run) && i < |run| && Saved(a, uid, s) in run[i].trace && Saved(b, uid, t) in run[i].trace
    ensures s.(phase := STARTED) == t.(phase := STARTED)
  {
    hide IsRun, StoreOk, RecordsAreStored, FinishedSecretsAreGone, TraceJustified, Wellformed, WorkerOk;
    RunsAreSafe(run, i);
  }

  // ---------- the Secret ----------

  /** Whatever the controller does in one step, every Secret keeps its object, UID and version,
      except the one Secret it read, matched against the record in force, and locked. */
  lemma SecretIdentity(run: seq<System>, i: nat, id: nat, reply: Reply, n: string)
    requires IsRun(run) && i + 1 < |run| && Works(run[i], run[i + 1], id, reply)
    requires n in run[i].world.secrets
    requires n !in run[i + 1].world.secrets || run[i + 1].world.secrets[n] != run[i].world.secrets[n]
    ensures var w, secret := run[i].workers[id], run[i].world.secrets[n];
      && w.SendSecretDelete? && w.secret == secret && w.secret.name == n && !secret.deleting
      && ReadCheckpoint(w.obs) == Good(w.state) && w.state.phase == CONFIRMED
      && BindingMatches(run[i].world.operatorDefault, w.obs, Some(secret), w.state)
      && secret.uid == w.state.secretUID && RequestsCredentialDeletion(secret)
      && (n !in run[i + 1].world.secrets <==> secret.finalizers == [])
      && (n in run[i + 1].world.secrets ==>
            run[i + 1].world.secrets[n] == secret.(deleting := true, version := run[i].world.clock + 1))
  {
    hide ReadCheckpoint, BindingMatches, Step, IsRun;
    RunsAreSafe(run, i);
    var wd, w := run[i].world, run[i].workers[id];
    InvFacts(run[i], id);
    hide Inv;
    OnlySecretDeletesTouchSecrets(wd, id, w, reply, n);
    hide SharedOk, ObsOk;
    SnapshotIsStored(wd, w.obs, w.secret);
    MatchingSecretIsRecorded(wd, w.obs, w.secret, w.state);
  }

  lemma InvFacts(s: System, id: nat)
    requires Inv(s) && id in s.workers
    ensures WorkerOk(s.world, s.trace, id, s.workers[id])
    ensures forall n :: n in s.world.secrets ==> s.world.secrets[n].name == n
  {
    hide WorkerOk, StoreOk, RecordsAreStored, RecordsAgree, FinishedSecretsAreGone, TraceJustified;
  }

  lemma OnlySecretDeletesTouchSecrets(wd: World, id: nat, w: Worker, reply: Reply, n: string)
    requires !w.Done? && n in wd.secrets && wd.secrets[n].name == n
    requires forall m :: m in wd.secrets ==> wd.secrets[m].name == m
    requires var wd' := Step(wd, id, w, reply).world; n !in wd'.secrets || wd'.secrets[n] != wd.secrets[n]
    ensures w.SendSecretDelete? && w.secret.name == n
    ensures wd.secrets[n].uid == w.secret.uid && wd.secrets[n].version == w.secret.version
    ensures Step(wd, id, w, reply).world == RemoveSecret(wd, wd.secrets[n])
  {
    hide StepRead, AfterCleanup, RunSpec, Encode;
  }

  // ---------- the next reconcile ----------

  lemma SameGenerationSameIdentity(wd: World, obs: Cluster, latest: Cluster)
    requires IsSnapshot(wd, obs) && latest.name in wd.clusters && wd.clusters[latest.name] == latest
    requires SameInputs(wd.operatorDefault, obs, latest)
    ensures latest.identity == obs.identity
  {
    hide CheckpointAdvances, CheckpointText, ClusterNameFor, VolumesPolicyFor;
  }

  lemma SameInputsMatch(operatorDefault: string, obs: Cluster, c: Cluster, seen: Option<Secret>, s: State)
    requires BindingMatches(operatorDefault, obs, seen, s) && c.uid == obs.uid && c.identity == obs.identity
    requires ClusterNameFor(c) == ClusterNameFor(obs) && VolumesPolicyFor(operatorDefault, c) == VolumesPolicyFor(operatorDefault, obs)
    ensures BindingMatches(operatorDefault, c, seen, s)
  {
    hide ClusterNameFor, VolumesPolicyFor, DescribeCredential, ConfigMatches;
  }

  /** The record is one annotation more: name, policy and identity read as before. */
  lemma RecordReadsAsBefore(operatorDefault: string, c: Cluster, s: State, version: nat)
    ensures var c' := WithRecord(c, s).(version := version);
      && c'.uid == c.uid && c'.identity == c.identity && ClusterNameFor(c') == ClusterNameFor(c)
      && VolumesPolicyFor(operatorDefault, c') == VolumesPolicyFor(operatorDefault, c)
  {
    hide Encode;
  }

  lemma SaveGoalMatches(wd: World, tr: seq<Event>, id: nat, obs: Cluster, seen: Option<Secret>, s: State)
    requires GoalOk(wd, tr, id, obs, seen, Save(s))
    ensures seen.Some? && BindingMatches(wd.operatorDefault, obs, seen, s) && IsValid(s)
  {
    hide BindingMatches, IsValid, ReadCheckpoint;
  }

  /** Self-acceptance in every run: a committed checkpoint reads back as written, and the object
      with the Secret this reconcile read passes the binding check. So does the next reconcile,
      as long as nobody changes these inputs. */
  lemma SavedCheckpointIsAccepted(run: seq<System>, i: nat, id: nat, reply: Reply)
    requires IsRun(run) && i + 1 < |run| && Works(run[i], run[i + 1], id, reply)
    requires run[i].workers[id].SendPatch? && run[i].workers[id].goal.Save? && run[i + 1].world != run[i].world
    ensures var w, wd' := run[i].workers[id], run[i + 1].world;
      && w.seen.Some? && w.obs.name in wd'.clusters
      && var c := wd'.clusters[w.obs.name];
         && ReadCheckpoint(c) == Good(w.goal.state) && CheckpointText(c) == Some(Encode(w.goal.state))
         && BindingMatches(wd'.operatorDefault, c, w.seen, w.goal.state)
  {
    var s, w := run[i], run[i].workers[id];
    hide IsRun;
    RunsAreSafe(run, i);
    hide Inv;
    WorkerIsOk(s, id);
    SaveStepIsAccepted(s.world, s.trace, id, w, reply);
  }

  lemma SaveStepIsAccepted(wd: World, tr: seq<Event>, id: nat, w: Worker, reply: Reply)
    requires SharedOk(wd, tr) && WorkerOk(wd, tr, id, w) && w.SendPatch? && w.goal.Save?
    requires Step(wd, id, w, reply).world != wd
    ensures var wd' := Step(wd, id, w, reply).world;
      && w.seen.Some? && w.obs.name in wd'.clusters
      && var c := wd'.clusters[w.obs.name];
         && ReadCheckpoint(c) == Good(w.goal.state) && CheckpointText(c) == Some(Encode(w.goal.state))
         && BindingMatches(wd'.operatorDefault, c, w.seen, w.goal.state)
  {
    hide SharedOk, WorkerOk, Step, ReadCheckpoint, Encode, BindingMatches, CheckpointText;
    SaveStepPuts(wd, tr, id, w, reply);
    PutRecordIsAccepted(wd, tr, id, w.obs, w.seen, w.goal.state, w.latest);
  }

  lemma SaveStepPuts(wd: World, tr: seq<Event>, id: nat, w: Worker, reply: Reply)
    requires WorkerOk(wd, tr, id, w) && w.SendPatch? && w.goal.Save? && Step(wd, id, w, reply).world != wd
    ensures ObsOk(wd, tr, w.obs) && SeenOk(wd, w.obs, w.seen) && GoalOk(wd, tr, id, w.obs, w.seen, w.goal)
    ensures SameInputs(wd.operatorDefault, w.obs, w.latest) && w.latest.name == w.obs.name
    ensures w.latest.name in wd.clusters && wd.clusters[w.latest.name] == w.latest
    ensures Step(wd, id, w, reply).world == PutCluster(wd, WithRecord(w.latest, w.goal.state))
  {
    hide SeenOk, GoalOk, ObsOk, SameInputs, ReadCheckpoint, Encode, PutCluster;
    LockedIsStored(wd, w.latest);
  }

  lemma PutRecordIsAccepted(wd: World, tr: seq<Event>, id: nat, obs: Cluster, seen: Option<Secret>, s: State, latest: Cluster)
    requires ObsOk(wd, tr, obs) && SeenOk(wd, obs, seen) && GoalOk(wd, tr, id, obs, seen, Save(s))
    requires SameInputs(wd.operatorDefault, obs, latest) && latest.name in wd.clusters && wd.clusters[latest.name] == latest
    ensures var wd' := PutCluster(wd, WithRecord(latest, s));
      && seen.Some? && latest.name in wd'.clusters
      && var c := wd'.clusters[latest.name];
         && ReadCheckpoint(c) == Good(s) && CheckpointText(c) == Some(Encode(s))
         && BindingMatches(wd'.operatorDefault, c, seen, s)
  {
    hide SeenOk, GoalOk, CheckpointOk, IsSnapshot, ReadCheckpoint, Encode, BindingMatches, IsValid, Justified, RecordFits,
         CheckpointText, PutCluster, WithRecord;
    SaveGoalMatches(wd, tr, id, obs, seen, s);
    SaveFits(wd, tr, id, obs, seen, s, latest);
    SameGenerationSameIdentity(wd, obs, latest);
    RecordIsPut(wd, latest, s);
    RecordReadsAsBefore(wd.operatorDefault, latest, s, wd.clock + 1);
    StoredRecordReads(wd, latest, s);
    SameInputsAreScope(wd.operatorDefault, obs, latest);
    hide SameInputs;
    SameInputsMatch(wd.operatorDefault, obs, PutCluster(wd, WithRecord(latest, s)).clusters[latest.name], seen, s);
  }

  lemma SameInputsAreScope(operatorDefault: string, obs: Cluster, c: Cluster)
    requires SameInputs(operatorDefault, obs, c)
    ensures c.uid == obs.uid && ClusterNameFor(c) == ClusterNameFor(obs)
    ensures VolumesPolicyFor(operatorDefault, c) == VolumesPolicyFor(operatorDefault, obs)
  {
  }

  lemma StoredRecordReads(wd: World, c: Cluster, s: State)
    requires RecordFits(wd, c, s)
    ensures var wd' := PutCluster(wd, WithRecord(c, s));
      c.name in wd'.clusters && wd'.clusters[c.name] == WithRecord(c, s).(version := wd.clock + 1) && wd'.operatorDefault == wd.operatorDefault
  {
    hide IsValid, Encode, ReadCheckpoint, CheckpointText, SecretKnown;
    assert FINALIZER in c.finalizers;
  }
}
