/** What every reconcile has looked at before it cleans, deletes or writes anything: whether the
    object is paused, whether it may be cleaned at all, and whether the Secret is still the one it
    read. */
module PauseSafety {
  import opened Results
  import opened GoStrings
  import opened Credentials
  import opened Objects
  import opened Lifecycle
  import opened Checkpoint
  import opened Runner
  import opened Protocol
  import opened Evolution
  import opened Invariants
  import opened StepSafety
  import opened Execution
  import opened Sharing
  import ApiErrors

  // ---------- what a reconcile has seen ----------

  /** This reconcile could read exactly this object in one of its states. */
  ghost predicate ReadBy(run: seq<System>, k: nat, id: nat, c: Cluster) {
    exists h: nat :: h <= k && h < |run| && id in run[h].workers && c.name in run[h].world.clusters && run[h].world.clusters[c.name] == c
  }

  /** In some state of this reconcile, the object as it had read it was not paused. */
  ghost predicate FoundUnpaused(run: seq<System>, k: nat, id: nat, c: Cluster) {
    exists j: nat :: j <= k && j < |run| && id in run[j].workers && ReadBy(run, j, id, c) && !Paused(run[j].world.owners, c)
  }

  /** In some state of this reconcile, the object was not paused, was held by our finalizer alone,
      and was in scope: deleting, with the generation, name, policy and checkpoint first read. */
  ghost predicate FoundFit(run: seq<System>, k: nat, id: nat, obs: Cluster)
    requires run != []
  {
    exists c: Cluster :: FoundUnpaused(run, k, id, c) && c.finalizers == [FINALIZER] && SameInputs(run[0].world.operatorDefault, obs, c)
  }

  /** The Secret stood there exactly as it was read, or stood not there if none was found. */
  ghost predicate SecretStands(wd: World, obs: Cluster, seen: Option<Secret>) {
    match seen
    case None => obs.identity.name !in wd.secrets
    case Some(secret) => obs.identity.name in wd.secrets && wd.secrets[obs.identity.name] == secret
  }

  /** In some state of this reconcile, at the check that leads to this goal, the Secret stood. */
  ghost predicate FoundSecret(run: seq<System>, k: nat, id: nat, obs: Cluster, seen: Option<Secret>, goal: Goal) {
    exists j: nat :: j <= k && j < |run| && id in run[j].workers && run[j].workers[id] == RecheckSecret(obs, seen, goal)
      && SecretStands(run[j].world, obs, seen)
  }

  /** An object that may be cleaned: deleting, ours to clean, with a name and a directly named
      identity Secret. */
  predicate MayBeCleaned(c: Cluster) {
    && c.deleting && "janitor.capi.stackhpc.com" in c.finalizers
    && (c.identity.kind == "" || c.identity.kind == "Secret") && c.identity.name != ""
    && HasInk(if "cluster.x-k8s.io/cluster-name" in c.labels then c.labels["cluster.x-k8s.io/cluster-name"] else c.name)
  }

  ghost predicate FoundCleanable(run: seq<System>, k: nat, id: nat, obs: Cluster) {
    FoundUnpaused(run, k, id, obs) && MayBeCleaned(obs)
  }

  /** The object to be adopted has the UID of the one this reconcile began with, unpaused, live and
      without the finalizer. */
  ghost predicate FoundAdoptable(run: seq<System>, k: nat, id: nat, uid: string) {
    exists obs: Cluster :: FoundUnpaused(run, k, id, obs) && obs.uid == uid && !obs.deleting && FINALIZER !in obs.finalizers
  }

  /** What a worker's place in the code says about its own past. */
  ghost predicate Past(run: seq<System>, k: nat, id: nat, w: Worker)
    requires run != []
  {
    match w
    case Start(_) => true
    case Done(_) => true
    case CheckPause(obs) => ReadBy(run, k, id, obs)
    case Adopt(obs) => FoundUnpaused(run, k, id, obs) && !obs.deleting && FINALIZER !in obs.finalizers
    case AdoptCheckPause(latest) => ReadBy(run, k, id, latest) && FoundAdoptable(run, k, id, latest.uid)
    case AdoptPatch(latest) => FoundUnpaused(run, k, id, latest) && FoundAdoptable(run, k, id, latest.uid)
    case Resume(obs, _, _) => FoundCleanable(run, k, id, obs) && obs.finalizers == [FINALIZER]
    case RecheckCluster(obs, seen, goal) => FoundCleanable(run, k, id, obs) && FoundSecret(run, k, id, obs, seen, goal)
    case RecheckPause(obs, seen, goal, latest) =>
      && FoundCleanable(run, k, id, obs) && FoundSecret(run, k, id, obs, seen, goal)
      && ReadBy(run, k, id, latest) && SameInputs(run[0].world.operatorDefault, obs, latest)
    case RecheckReferences(obs, seen, goal) =>
      FoundCleanable(run, k, id, obs) && FoundSecret(run, k, id, obs, seen, goal) && FoundFit(run, k, id, obs)
    case SendCredentialDelete(obs, seen, s, session) =>
      && FoundCleanable(run, k, id, obs) && FoundSecret(run, k, id, obs, seen, DeleteCredential(s, session))
      && FoundFit(run, k, id, obs)
    case SendSecretDelete(obs, secret, s) =>
      FoundCleanable(run, k, id, obs) && FoundSecret(run, k, id, obs, Some(secret), DeleteSecret(s)) && FoundFit(run, k, id, obs)
    case SendPatch(obs, seen, goal, latest) =>
      FoundCleanable(run, k, id, obs) && FoundSecret(run, k, id, obs, seen, goal) && FoundUnpaused(run, k, id, latest)
    case _ => FoundCleanable(run, k, id, w.obs)
  }

  // ---------- the past stays ----------

  lemma ReadStays(run: seq<System>, k: nat, id: nat)
    ensures forall c :: ReadBy(run, k, id, c) ==> ReadBy(run, k + 1, id, c)
  {
  }

  lemma UnpausedStays(run: seq<System>, k: nat, id: nat)
    ensures forall c :: FoundUnpaused(run, k, id, c) ==> FoundUnpaused(run, k + 1, id, c)
  {
    hide ReadBy, Paused;
  }

  lemma SecretStays(run: seq<System>, k: nat, id: nat)
    ensures forall obs, seen, goal :: FoundSecret(run, k, id, obs, seen, goal) ==> FoundSecret(run, k + 1, id, obs, seen, goal)
  {
    hide SecretStands;
  }

  lemma PastStays(run: seq<System>, k: nat, id: nat, w: Worker)
    requires run != [] && Past(run, k, id, w)
    ensures Past(run, k + 1, id, w)
  {
    hide ReadBy, FoundUnpaused, FoundSecret, SameInputs, MayBeCleaned;
    ReadStays(run, k, id);
    UnpausedStays(run, k, id);
    SecretStays(run, k, id);
  }

  // ---------- one step ----------

  lemma ReadNow(run: seq<System>, k: nat, id: nat, name: string)
    requires k < |run| && id in run[k].workers && NamesOk(run[k].world) && name in run[k].world.clusters
    ensures ReadBy(run, k, id, run[k].world.clusters[name])
  {
  }

  lemma UnpausedNow(run: seq<System>, k: nat, id: nat, c: Cluster)
    requires k < |run| && id in run[k].workers && ReadBy(run, k, id, c) && !Paused(run[k].world.owners, c)
    ensures FoundUnpaused(run, k, id, c)
  {
    hide ReadBy, Paused;
  }

  lemma FitNow(run: seq<System>, k: nat, id: nat, obs: Cluster, c: Cluster)
    requires run != [] && FoundUnpaused(run, k, id, c) && |c.finalizers| == 1 && SameInputs(run[0].world.operatorDefault, obs, c)
    ensures FoundFit(run, k, id, obs)
  {
    assert HasFinalizer(c);
    hide SameInputs, FoundUnpaused;
    SoleFinalizer(c);
  }

  /** The comparison of the Secret is exact: it passes just when the Secret stands as it was read,
      whatever was edited, replaced, removed or created since. */
  lemma SecretCheckIff(wd: World, obs: Cluster, seen: Option<Secret>, goal: Goal)
    requires Wellformed(wd) && SeenOk(wd, obs, seen)
    ensures StepRead(wd, RecheckSecret(obs, seen, goal)) == if SecretStands(wd, obs, seen) then RecheckCluster(obs, seen, goal) else Done(Retry)
  {
  }

  /** What passes the pause check of a deleting object goes on only if it may be cleaned. */
  lemma BeginsCleanable(obs: Cluster)
    requires obs.deleting && !AfterPause(obs).Done?
    ensures AfterPause(obs) == ReadSecret(obs) && MayBeCleaned(obs)
  {
    TrimmedIffInk(ClusterNameFor(obs));
    hide TrimSpace, HasInk;
  }

  lemma ResumeIsSole(operatorDefault: string, obs: Cluster, seen: Option<Secret>, s: State)
    requires HasFinalizer(obs) && BeginResume(operatorDefault, obs, seen, s).Resume?
    ensures obs.finalizers == [FINALIZER]
  {
    hide BindingMatches;
    SoleFinalizer(obs);
  }

  lemma FirstReadPast(run: seq<System>, k: nat, id: nat, w: Worker)
    requires k < |run| && id in run[k].workers && NamesOk(run[k].world) && Past(run, k, id, w)
    requires w.Start? || w.CheckPause? || w.Adopt? || w.AdoptCheckPause?
    ensures Past(run, k, id, StepRead(run[k].world, w))
  {
    hide Paused, ReadBy, NamesOk, FoundUnpaused, BeginDelete, MayBeCleaned;
    match w
    case Start(name) =>
      if name in run[k].world.clusters {
        ReadNow(run, k, id, name);
      }
    case CheckPause(obs) =>
      if !Paused(run[k].world.owners, obs) {
        UnpausedNow(run, k, id, obs);
        if obs.deleting && !AfterPause(obs).Done? {
          BeginsCleanable(obs);
        }
      }
    case Adopt(obs) =>
      if obs.name in run[k].world.clusters {
        ReadNow(run, k, id, obs.name);
        if run[k].world.clusters[obs.name].uid == obs.uid {
          assert FoundAdoptable(run, k, id, obs.uid);
        }
      }
    case AdoptCheckPause(latest) =>
      if !Paused(run[k].world.owners, latest) {
        UnpausedNow(run, k, id, latest);
      }
  }

  lemma MiddleReadPast(run: seq<System>, k: nat, id: nat, w: Worker)
    requires k < |run| && Past(run, k, id, w)
    requires w.ReadSecret? || w.Authenticate? || w.CheckReferences? || w.Resume?
    ensures Past(run, k, id, StepRead(run[k].world, w))
  {
    hide OtherReferences, OpenSession, ReadCheckpoint, FoundUnpaused, FoundSecret, FoundFit, BeginResume, HasInk;
    match w
    case ReadSecret(obs) =>
      var seen := Find(run[k].world, obs.identity.name);
      if ReadCheckpoint(obs).Good? {
        BeginResumePast(run, k, id, obs, seen, ReadCheckpoint(obs).state);
      }
    case Authenticate(_, _) =>
    case CheckReferences(_, _, _) =>
    case Resume(_, _, _) =>
  }

  lemma BeginResumePast(run: seq<System>, k: nat, id: nat, obs: Cluster, seen: Option<Secret>, s: State)
    requires k < |run| && FoundCleanable(run, k, id, obs)
    ensures Past(run, k, id, BeginResume(run[k].world.operatorDefault, obs, seen, s))
  {
    hide BindingMatches, FoundUnpaused, HasInk;
    if BeginResume(run[k].world.operatorDefault, obs, seen, s).Resume? {
      ResumeIsSole(run[k].world.operatorDefault, obs, seen, s);
    }
  }

  lemma SecretReadPast(run: seq<System>, k: nat, id: nat, obs: Cluster, seen: Option<Secret>, goal: Goal)
    requires k < |run| && id in run[k].workers && run[k].workers[id] == RecheckSecret(obs, seen, goal)
    requires Wellformed(run[k].world) && SeenOk(run[k].world, obs, seen) && FoundCleanable(run, k, id, obs)
    ensures Past(run, k, id, StepRead(run[k].world, RecheckSecret(obs, seen, goal)))
  {
    hide Wellformed, SeenOk, FoundCleanable, SecretStands, StepRead;
    SecretCheckIff(run[k].world, obs, seen, goal);
    if SecretStands(run[k].world, obs, seen) {
      assert FoundSecret(run, k, id, obs, seen, goal);
    }
  }

  lemma LaterReadPast(run: seq<System>, k: nat, id: nat, w: Worker)
    requires k < |run| && id in run[k].workers && NamesOk(run[k].world) && Past(run, k, id, w)
    requires run[k].world.operatorDefault == run[0].world.operatorDefault
    requires w.RecheckCluster? || w.RecheckPause? || w.RecheckReferences?
    ensures Past(run, k, id, StepRead(run[k].world, w))
  {
    hide OtherReferences, Paused, ReadBy, NamesOk, FoundUnpaused, FoundFit, FoundCleanable, FoundSecret, SameInputs;
    match w
    case RecheckCluster(obs, _, _) =>
      if obs.name in run[k].world.clusters {
        ReadNow(run, k, id, obs.name);
      }
    case RecheckPause(obs, _, _, latest) =>
      if !Paused(run[k].world.owners, latest) {
        UnpausedNow(run, k, id, latest);
        if |latest.finalizers| == 1 {
          FitNow(run, k, id, obs, latest);
        }
      }
    case RecheckReferences(_, _, _) =>
  }

  lemma RecheckReadPast(run: seq<System>, k: nat, id: nat, w: Worker)
    requires k < |run| && id in run[k].workers && run[k].workers[id] == w && Inv(run[k]) && Past(run, k, id, w)
    requires run[k].world.operatorDefault == run[0].world.operatorDefault
    requires w.RecheckSecret? || w.RecheckCluster? || w.RecheckPause? || w.RecheckReferences?
    ensures Past(run, k, id, StepRead(run[k].world, w))
  {
    hide Inv, SharedOk, Wellformed, StepRead, SeenOk, ObsOk, GoalOk, IsSnapshot, SameInputs, NamesOk, FoundCleanable;
    WorkerIsOk(run[k], id);
    SharedIsWellformed(run[k].world, run[k].trace);
    InvNames(run[k]);
    if w.RecheckSecret? {
      SecretReadPast(run, k, id, w.obs, w.seen, w.goal);
    } else {
      LaterReadPast(run, k, id, w);
    }
  }

  lemma InvNames(s: System)
    requires Inv(s)
    ensures NamesOk(s.world)
  {
    hide StoreOk, RecordsAreStored, RecordsAgree, FinishedSecretsAreGone, TraceJustified, WorkerOk;
  }

  lemma WritePast(run: seq<System>, k: nat, id: nat, w: Worker, reply: Reply)
    requires k < |run| && !w.Done? && !IsRead(w) && Past(run, k, id, w)
    ensures Past(run, k, id, Step(run[k].world, id, w, reply).worker)
  {
    hide RunSpec, PutCluster, RemoveSecret, Encode, FoundUnpaused, FoundFit, FoundSecret, FoundCleanable, RequestsCredentialDeletion,
         FirstState, ValidateBinding, BindingMatches, ApiErrors.ClassifyApplicationCredentialDelete, VerdictOfError;
  }

  lemma StepPast(run: seq<System>, k: nat, id: nat, w: Worker, reply: Reply)
    requires k < |run| && id in run[k].workers && run[k].workers[id] == w && Inv(run[k]) && !w.Done? && Past(run, k, id, w)
    requires run[k].world.operatorDefault == run[0].world.operatorDefault
    ensures Past(run, k, id, Step(run[k].world, id, w, reply).worker)
  {
    hide StepRead, StepVerify, StepCredentialDelete, StepSecretDelete, StepPatch, StepAdopt, Inv, FoundUnpaused, FoundFit, FoundSecret,
         ReadBy, FoundCleanable;
    if !IsRead(w) {
      WritePast(run, k, id, w, reply);
    } else if reply.Normal? {
      ReadPast(run, k, id, w);
    }
  }

  lemma ReadPast(run: seq<System>, k: nat, id: nat, w: Worker)
    requires k < |run| && id in run[k].workers && run[k].workers[id] == w && Inv(run[k]) && IsRead(w) && Past(run, k, id, w)
    requires run[k].world.operatorDefault == run[0].world.operatorDefault
    ensures Past(run, k, id, StepRead(run[k].world, w))
  {
    hide StepRead, Inv, Past;
    if w.RecheckSecret? || w.RecheckCluster? || w.RecheckPause? || w.RecheckReferences? {
      RecheckReadPast(run, k, id, w);
    } else if w.ReadSecret? || w.Authenticate? || w.CheckReferences? || w.Resume? {
      MiddleReadPast(run, k, id, w);
    } else {
      InvNames(run[k]);
      FirstReadPast(run, k, id, w);
    }
  }

  // ---------- every run ----------

  lemma {:induction false} OperatorDefaultIsConstant(run: seq<System>, k: nat)
    requires IsRun(run) && k < |run|
    ensures run[k].world.operatorDefault == run[0].world.operatorDefault
  {
    hide IsRun, Next, Inv;
    if k > 0 {
      OperatorDefaultIsConstant(run, k - 1);
      RunsAreSafe(run, k - 1);
      RunStep(run, k - 1);
      NextKeepsInv(run[k - 1], run[k]);
    }
  }

  lemma {:induction false} WorkersHavePasts(run: seq<System>, k: nat)
    requires IsRun(run) && k < |run|
    ensures forall id :: id in run[k].workers ==> Past(run, k, id, run[k].workers[id])
  {
    hide Past, Inv, EnvironmentStep, Step, InitialWorld;
    if k > 0 {
      WorkersHavePasts(run, k - 1);
      RunsAreSafe(run, k - 1);
      OperatorDefaultIsConstant(run, k - 1);
      var s, s' := run[k - 1], run[k - 1 + 1];
      assert Next(s, s');
      forall id | id in s'.workers
        ensures Past(run, k, id, s'.workers[id])
      {
        if id in s.workers && s'.workers[id] == s.workers[id] {
          PastStays(run, k - 1, id, s'.workers[id]);
        } else if name :| Starts(s, s', name) {
          StartPast(run, k, id, name);
        } else {
          var reply :| Works(s, s', id, reply);
          StepPast(run, k - 1, id, s.workers[id], reply);
          PastStays(run, k - 1, id, s'.workers[id]);
        }
      }
    }
  }

  lemma StartPast(run: seq<System>, k: nat, id: nat, name: string)
    requires run != []
    ensures Past(run, k, id, Start(name))
  {
  }

  // ---------- what that says ----------

  /** No cleanup without a pause check: a reconcile that is about to run the cleanup, with every
      OpenStack DELETE it may send, has found this object unpaused and fit to be cleaned. */
  lemma CleanupFollowsAPauseCheck(run: seq<System>, k: nat, id: nat)
    requires IsRun(run) && k < |run| && id in run[k].workers && run[k].workers[id].Verify?
    ensures FoundUnpaused(run, k, id, run[k].workers[id].obs) && MayBeCleaned(run[k].workers[id].obs)
  {
    hide IsRun, FoundUnpaused, MayBeCleaned;
    WorkersHavePasts(run, k);
    var w := run[k].workers[id];
    assert Past(run, k, id, w);
  }

  /** The same of every complete cleanup in the trace. */
  lemma {:induction false} CleanedObjectsWereUnpaused(run: seq<System>, k: nat)
    requires IsRun(run) && k < |run|
    ensures forall e :: e in run[k].trace && e.Cleaned? ==> FoundCleanable(run, k, e.id, e.obs)
  {
    hide EnvironmentStep, Step, InitialWorld, FoundUnpaused, MayBeCleaned;
    if k > 0 {
      CleanedObjectsWereUnpaused(run, k - 1);
      var s, s' := run[k - 1], run[k - 1 + 1];
      assert Next(s, s');
      forall e | e in s'.trace && e.Cleaned?
        ensures FoundCleanable(run, k, e.id, e.obs)
      {
        UnpausedStays(run, k - 1, e.id);
        if e !in s.trace {
          var id, reply :| Works(s, s', id, reply);
          OnlyVerifyCleans(s.world, id, s.workers[id], reply, e);
          CleanupFollowsAPauseCheck(run, k - 1, id);
        }
      }
    }
  }

  lemma OnlyVerifyCleans(wd: World, id: nat, w: Worker, reply: Reply, e: Event)
    requires !w.Done? && e.Cleaned? && e in Step(wd, id, w, reply).events
    ensures w.Verify? && e.id == id && e.obs == w.obs
  {
    hide StepRead, AfterCleanup, RunSpec, PutCluster, RemoveSecret, Encode, ApiErrors.ClassifyApplicationCredentialDelete;
  }

  /** Every credential DELETE and every Secret DELETE follows two looks of the same reconcile: one
      at the Secret, which stood exactly as it had been matched, and one at the object, which was
      unpaused, in scope and without another finalizer. */
  lemma DeletesFollowALook(run: seq<System>, k: nat, id: nat)
    requires IsRun(run) && k < |run| && id in run[k].workers
    requires run[k].workers[id].SendCredentialDelete? || run[k].workers[id].SendSecretDelete?
    ensures var w := run[k].workers[id];
      && FoundFit(run, k, id, w.obs)
      && (w.SendCredentialDelete? ==> FoundSecret(run, k, id, w.obs, w.seen, DeleteCredential(w.state, w.session)))
      && (w.SendSecretDelete? ==> FoundSecret(run, k, id, w.obs, Some(w.secret), DeleteSecret(w.state)))
  {
    hide IsRun, FoundFit, FoundSecret, FoundCleanable;
    WorkersHavePasts(run, k);
    var w := run[k].workers[id];
    assert Past(run, k, id, w);
  }

  /** A patch commits on an object that carries no pause annotation at that instant, and whose
      owning Clusters this reconcile found unpaused while the object was as it is. Before it this
      reconcile found the Secret exactly as it had been matched; an adoption is of the very object
      the reconcile began with. */
  lemma PatchedObjectIsNotPaused(run: seq<System>, k: nat, id: nat, reply: Reply)
    requires IsRun(run) && k + 1 < |run| && Works(run[k], run[k + 1], id, reply)
    requires run[k].workers[id].SendPatch? || run[k].workers[id].AdoptPatch?
    requires run[k + 1].world != run[k].world
    ensures var w := run[k].workers[id];
      && w.latest.name in run[k].world.clusters && run[k].world.clusters[w.latest.name] == w.latest
      && "cluster.x-k8s.io/paused" !in w.latest.annotations && FoundUnpaused(run, k, id, w.latest)
      && (w.SendPatch? ==> FoundSecret(run, k, id, w.obs, w.seen, w.goal))
      && (w.AdoptPatch? ==> FoundAdoptable(run, k, id, w.latest.uid))
  {
    hide IsRun, Inv, ObsOk, SeenOk, GoalOk, ClusterNameFor, VolumesPolicyFor, CheckpointText, ReadBy, SameInputs, Step, IsSnapshot,
         FoundFit, FoundSecret, FoundCleanable, FoundAdoptable;
    WorkersHavePasts(run, k);
    RunsAreSafe(run, k);
    var wd, w := run[k].world, run[k].workers[id];
    assert Past(run, k, id, w);
    WorkerIsOk(run[k], id);
    ChangedMeansLocked(wd, id, w, reply);
    LockedIsStored(wd, w.latest);
  }

  lemma ChangedMeansLocked(wd: World, id: nat, w: Worker, reply: Reply)
    requires w.SendPatch? || w.AdoptPatch?
    requires Step(wd, id, w, reply).world != wd
    ensures var name := if w.SendPatch? then w.obs.name else w.latest.name;
      name in wd.clusters && wd.clusters[name].version == w.latest.version
  {
    hide PutCluster, Encode, RemoveFinalizer;
  }
}
