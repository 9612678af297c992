/** Overlapping deletions of two clusters that share one identity Secret. */
module Overlap {
  import opened Results
  import opened GoStrings
  import opened Credentials
  import opened Objects
  import opened Lifecycle
  import opened Checkpoint
  import opened Runner
  import opened RunnerSafety
  import opened Convergence
  import opened Protocol
  import opened Execution
  import opened Progress

  /** One more step of a run, by one worker. */
  lemma WorkerCalls(run: seq<System>, id: nat, reply: Reply) returns (run': seq<System>)
    requires IsRun(run) && id in Last(run).workers && !Last(run).workers[id].Done?
    ensures IsRun(run') && run <= run' && |run'| == |run| + 1
    ensures var s := Last(run);
      var e := Step(s.world, id, s.workers[id], reply);
      Last(run') == s.(world := e.world, workers := s.workers[id := e.worker], trace := s.trace + e.events)
  {
    hide IsRun, Step;
    RunIsNotEmpty(run);
    var s := Last(run);
    var e := Step(s.world, id, s.workers[id], reply);
    var s' := s.(world := e.world, workers := s.workers[id := e.worker], trace := s.trace + e.events);
    assert Works(s, s', id, reply);
    ExtendRun(run, s');
    run' := run + [s'];
  }

  lemma WorkerStarts(run: seq<System>, name: string) returns (run': seq<System>)
    requires IsRun(run)
    ensures IsRun(run') && run <= run' && |run'| == |run| + 1
    ensures var s := Last(run);
      Last(run') == s.(workers := s.workers[s.nextID := Start(name)], nextID := s.nextID + 1)
  {
    hide IsRun;
    RunIsNotEmpty(run);
    var s := Last(run);
    var s' := s.(workers := s.workers[s.nextID := Start(name)], nextID := s.nextID + 1);
    assert Starts(s, s', name);
    ExtendRun(run, s');
    run' := run + [s'];
  }

  /** The run goes on from `s` by this worker alone, which is now at `w`. */
  ghost predicate Moved(run: seq<System>, run': seq<System>, id: nat, w: Worker)
    requires IsRun(run)
  {
    && IsRun(run') && run <= run' && Last(run').world == Last(run).world && Last(run').nextID == Last(run).nextID
    && Last(run').workers == Last(run).workers[id := w]
  }

  lemma WorkerReads(run: seq<System>, id: nat, w': Worker) returns (run': seq<System>)
    requires IsRun(run) && id in Last(run).workers && IsRead(Last(run).workers[id])
    requires StepRead(Last(run).world, Last(run).workers[id]) == w'
    ensures Moved(run, run', id, w')
  {
    hide IsRun, StepRead;
    RunIsNotEmpty(run);
    run' := WorkerCalls(run, id, Normal);
  }

  // ---------- up to the reference check ----------

  /** A deleting object whose Secret is to be deleted with its credential, with nothing recorded
      and nothing left in OpenStack, and another user of its Secret. */
  ghost predicate SharedDeletion(wd: World, inv: Inventory, c: Cluster) {
    && Ripe(wd, c) && Wellnamed(c) && CheckpointText(c).None? && Usable(wd, c) && DeletesCredential(wd, c)
    && OtherReferences(wd, c) && Ready(inv, RequestFor(wd, c)) && PhaseCount(inv, RequestFor(wd, c)) == 0
  }

  lemma FirstReads(wd: World, inv: Inventory, c: Cluster)
    requires SharedDeletion(wd, inv, c)
    ensures c.identity.name in wd.secrets && OpenSession(wd, c, wd.secrets[c.identity.name]).Some?
    ensures StepRead(wd, Start(c.name)) == CheckPause(c) && StepRead(wd, CheckPause(c)) == ReadSecret(c)
    ensures StepRead(wd, ReadSecret(c)) == Authenticate(c, wd.secrets[c.identity.name])
  {
    hide Paused, OtherReferences, TrimSpace, ClusterNameFor, OpenSession, ValidateBinding, ConfigMatches, DescribeCredential, Ready,
         PhaseCount, RequestsCredentialDeletion;
  }

  lemma LaterReads(wd: World, inv: Inventory, c: Cluster, s: State)
    requires SharedDeletion(wd, inv, c) && c.identity.name in wd.secrets && OpenSession(wd, c, wd.secrets[c.identity.name]).Some?
    ensures var secret := wd.secrets[c.identity.name];
      && StepRead(wd, Authenticate(c, secret)) == Verify(c, secret, OpenSession(wd, c, secret).value)
      && StepRead(wd, CheckReferences(c, secret, s)) == RecheckSecret(c, Some(secret), Finish(true))
  {
    hide Paused, OtherReferences, TrimSpace, ClusterNameFor, OpenSession, ValidateBinding, ConfigMatches, DescribeCredential, Ready,
         PhaseCount, RequestsCredentialDeletion;
  }

  lemma VerifyCompletes(wd: World, inv: Inventory, c: Cluster, id: nat)
    requires SharedDeletion(wd, inv, c) && c.identity.name in wd.secrets && OpenSession(wd, c, wd.secrets[c.identity.name]).Some?
    ensures var secret := wd.secrets[c.identity.name];
      var b := OpenSession(wd, c, secret).value;
      var t := Step(wd, id, Verify(c, secret, b), Ran(inv, HONOURING));
      t.world == wd && t.worker == CheckReferences(c, secret, FirstState(wd, c, secret, b))
  {
    hide Ripe, OtherReferences, TrimSpace, ClusterNameFor, OpenSession, Ready, PhaseCount, RequestsCredentialDeletion, AfterCleanup,
         FirstState, Usable, RunSpec, IsCurrentPhase, CleanKind;
    var secret := wd.secrets[c.identity.name];
    var b := OpenSession(wd, c, secret).value;
    HonouredVerify(wd, inv, c, id, secret, b);
    RecordingBegins(wd, c);
  }

  /** A reconcile from its start to the moment it has seen the other reference: it will finish
      without deleting the credential or the Secret. */
  lemma ReachesSharedFinish(run: seq<System>, inv: Inventory, c: Cluster, id: nat) returns (run': seq<System>)
    requires IsRun(run) && id in Last(run).workers && Last(run).workers[id] == Start(c.name)
    requires SharedDeletion(Last(run).world, inv, c)
    ensures c.identity.name in Last(run).world.secrets
    ensures Moved(run, run', id, RecheckSecret(c, Some(Last(run).world.secrets[c.identity.name]), Finish(true)))
  {
    hide IsRun, StepRead, SharedDeletion, Step, OpenSession, FirstState;
    RunIsNotEmpty(run);
    var wd := Last(run).world;
    FirstReads(wd, inv, c);
    var secret := wd.secrets[c.identity.name];
    var b := OpenSession(wd, c, secret).value;
    LaterReads(wd, inv, c, FirstState(wd, c, secret, b));
    VerifyCompletes(wd, inv, c, id);
    var run1 := WorkerReads(run, id, CheckPause(c));
    var run2 := WorkerReads(run1, id, ReadSecret(c));
    var run3 := WorkerReads(run2, id, Authenticate(c, secret));
    var run4 := WorkerReads(run3, id, Verify(c, secret, b));
    var run5 := WorkerCalls(run4, id, Ran(inv, HONOURING));
    run' := WorkerReads(run5, id, RecheckSecret(c, Some(secret), Finish(true)));
  }

  // ---------- from there to the end ----------

  lemma FinishReads(wd: World, c: Cluster, secret: Secret)
    requires Ripe(wd, c) && Find(wd, c.identity.name) == Some(secret)
    ensures var seen, goal := Some(secret), Finish(true);
      && StepRead(wd, RecheckSecret(c, seen, goal)) == RecheckCluster(c, seen, goal)
      && StepRead(wd, RecheckCluster(c, seen, goal)) == RecheckPause(c, seen, goal, c)
      && StepRead(wd, RecheckPause(c, seen, goal, c)) == SendPatch(c, seen, goal, c)
  {
    hide Paused, ClusterNameFor, VolumesPolicyFor, CheckpointText;
  }

  lemma FinishPatches(wd: World, c: Cluster, seen: Option<Secret>, id: nat)
    requires Ripe(wd, c)
    ensures Step(wd, id, SendPatch(c, seen, Finish(true), c), Normal).world == PutCluster(wd, Patched(c, Finish(true), c))
  {
    hide Paused, PutCluster, Patched;
  }

  lemma FinishesShared(run: seq<System>, c: Cluster, secret: Secret, id: nat) returns (run': seq<System>)
    requires IsRun(run) && id in Last(run).workers && Last(run).workers[id] == RecheckSecret(c, Some(secret), Finish(true))
    requires Ripe(Last(run).world, c) && Find(Last(run).world, c.identity.name) == Some(secret)
    ensures IsRun(run') && run <= run' && Last(run').world == PutCluster(Last(run).world, Patched(c, Finish(true), c))
    ensures forall other :: other in Last(run).workers && other != id ==>
      other in Last(run').workers && Last(run').workers[other] == Last(run).workers[other]
  {
    hide IsRun, StepRead, Step, PutCluster, Patched, Ripe;
    RunIsNotEmpty(run);
    var wd, seen, goal := Last(run).world, Some(secret), Finish(true);
    FinishReads(wd, c, secret);
    FinishPatches(wd, c, seen, id);
    var run1 := WorkerReads(run, id, RecheckCluster(c, seen, goal));
    var run2 := WorkerReads(run1, id, RecheckPause(c, seen, goal, c));
    var run3 := WorkerReads(run2, id, SendPatch(c, seen, goal, c));
    run' := WorkerCalls(run3, id, Normal);
  }

  lemma OneGone(wd: World, a: Cluster, b: Cluster)
    requires Ripe(wd, a) && Ripe(wd, b) && a.name != b.name
    ensures var wd' := PutCluster(wd, Patched(a, Finish(true), a));
      && Ripe(wd', b) && wd'.clusters == wd.clusters - {a.name} && wd'.secrets == wd.secrets && wd'.credentials == wd.credentials
  {
    FinishedIsGone(wd, a, true);
    assert PutCluster(wd, Patched(a, Finish(true), a)).owners == wd.owners;
    hide PutCluster, Patched, Paused;
  }

  /** This reconcile has seen the other reference and will finish. */
  ghost predicate SawSharing(s: System, id: nat, c: Cluster, secret: Secret) {
    id in s.workers && s.workers[id] == RecheckSecret(c, Some(secret), Finish(true))
  }

  /** Both reconciles are past their reference check, and both objects are still there. */
  ghost predicate BothInFlight(s: System, a: Cluster, b: Cluster, secret: Secret) {
    && a.name in s.world.clusters && b.name in s.world.clusters
    && exists i, j :: i != j && SawSharing(s, i, a, secret) && SawSharing(s, j, b, secret)
  }

  lemma BothReachFinish(run: seq<System>, invA: Inventory, invB: Inventory, a: Cluster, b: Cluster)
    returns (run': seq<System>, i: nat, j: nat)
    requires IsRun(run) && a.identity.name == b.identity.name
    requires SharedDeletion(Last(run).world, invA, a) && SharedDeletion(Last(run).world, invB, b)
    ensures IsRun(run') && run <= run' && Last(run').world == Last(run).world && i != j
    ensures a.identity.name in Last(run).world.secrets
    ensures var secret := Last(run).world.secrets[a.identity.name];
      SawSharing(Last(run'), i, a, secret) && SawSharing(Last(run'), j, b, secret)
  {
    hide IsRun, SharedDeletion, Last;
    RunIsNotEmpty(run);
    i := Last(run).nextID;
    var run1 := WorkerStarts(run, a.name);
    j := Last(run1).nextID;
    var run2 := WorkerStarts(run1, b.name);
    var run3 := ReachesSharedFinish(run2, invA, a, i);
    run' := ReachesSharedFinish(run3, invB, b, j);
  }

  lemma BothFinish(run: seq<System>, a: Cluster, b: Cluster, secret: Secret, i: nat, j: nat) returns (run': seq<System>)
    requires IsRun(run) && a.name != b.name && a.identity.name == b.identity.name && i != j
    requires Ripe(Last(run).world, a) && Ripe(Last(run).world, b) && Find(Last(run).world, a.identity.name) == Some(secret)
    requires SawSharing(Last(run), i, a, secret) && SawSharing(Last(run), j, b, secret)
    ensures IsRun(run') && run <= run'
    ensures Last(run').world.clusters == Last(run).world.clusters - {a.name, b.name}
    ensures Last(run').world.secrets == Last(run).world.secrets && Last(run').world.credentials == Last(run).world.credentials
  {
    hide IsRun, Last, Ripe, PutCluster, Patched;
    RunIsNotEmpty(run);
    var run1 := FinishesShared(run, a, secret, i);
    OneGone(Last(run).world, a, b);
    RunIsNotEmpty(run1);
    run' := FinishesShared(run1, b, secret, j);
    FinishedIsGone(Last(run1).world, b, true);
    var all := Last(run).world.clusters;
    assert all - {a.name} - {b.name} == all - {a.name, b.name};
  }

  /** From every reachable state with two such deletions that share a Secret there is a run of the
      protocol in which their reconciles overlap, from their starts to their ends, and both
      objects go; the credentials and the Secrets are all kept. */
  lemma OverlappingDeletionsPreserve(run: seq<System>, invA: Inventory, invB: Inventory, a: Cluster, b: Cluster)
    requires IsRun(run) && a.name != b.name && a.identity.name == b.identity.name
    requires SharedDeletion(Last(run).world, invA, a) && SharedDeletion(Last(run).world, invB, b)
    ensures a.identity.name in Last(run).world.secrets
    ensures exists run', m: nat ::
      (IsRun(run') && run <= run' && |run| <= m + 1 && m < |run'|
       && BothInFlight(run'[m], a, b, Last(run).world.secrets[a.identity.name])
       && Last(run').world.clusters == Last(run).world.clusters - {a.name, b.name}
       && Last(run').world.secrets == Last(run).world.secrets && Last(run').world.credentials == Last(run).world.credentials)
  {
    hide IsRun, SharedDeletion, Ripe, SawSharing;
    RunIsNotEmpty(run);
    SharedIsRipe(Last(run).world, invA, a);
    SharedIsRipe(Last(run).world, invB, b);
    var secret := Last(run).world.secrets[a.identity.name];
    var run1, i, j := BothReachFinish(run, invA, invB, a, b);
    RunIsNotEmpty(run1);
    var run' := BothFinish(run1, a, b, secret, i, j);
    assert run'[|run1| - 1] == Last(run1);
    assert BothInFlight(run'[|run1| - 1], a, b, secret);
  }

  lemma SharedIsRipe(wd: World, inv: Inventory, c: Cluster)
    requires SharedDeletion(wd, inv, c)
    ensures Ripe(wd, c) && c.identity.name in wd.secrets && c.name in wd.clusters
  {
    hide OtherReferences, Paused, TrimSpace, OpenSession, ValidateBinding, Ready, PhaseCount;
  }
}
