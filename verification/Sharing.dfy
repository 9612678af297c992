/** Clusters that share one identity Secret. */
module Sharing {
  import opened Results
  import opened Credentials
  import opened Objects
  import opened Lifecycle
  import opened Checkpoint
  import opened Runner
  import opened RunnerSafety
  import opened Protocol

  // ---------- what a worker saw, and when ----------

  /** The object was stored at state `h`, already being deleted. */
  ghost predicate DeletingAt(run: seq<System>, h: nat, obs: Cluster) {
    h < |run| && obs.name in run[h].world.clusters && run[h].world.clusters[obs.name] == obs && obs.deleting
  }

  ghost predicate StoredBy(run: seq<System>, k: nat, obs: Cluster) {
    exists h: nat :: h <= k && h < |run| && obs.name in run[h].world.clusters && run[h].world.clusters[obs.name] == obs
  }

  /** Deletion of `uid` was under way at or before state `k`. */
  ghost predicate DeletionBegun(run: seq<System>, k: nat, uid: string) {
    exists h: nat, obs: Cluster :: h <= k && DeletingAt(run, h, obs) && obs.uid == uid
  }

  /** Some state up to `k`, with deletion under way, had no other reference to the Secret. */
  ghost predicate UnsharedBy(run: seq<System>, k: nat, obs: Cluster) {
    exists j: nat :: j <= k && j < |run| && DeletionBegun(run, j, obs.uid) && !OtherReferences(run[j].world, obs)
  }

  /** What a worker's place in the code says about the past. */
  ghost predicate History(run: seq<System>, k: nat, w: Worker) {
    match w
    case Start(_) => true
    case Done(_) => true
    case Adopt(_) => true
    case AdoptCheckPause(_) => true
    case AdoptPatch(_) => true
    case CheckPause(obs) => StoredBy(run, k, obs)
    case SendCredentialDelete(obs, _, _, _) => DeletionBegun(run, k, obs.uid) && UnsharedBy(run, k, obs)
    case SendSecretDelete(obs, _, _) => DeletionBegun(run, k, obs.uid) && UnsharedBy(run, k, obs)
    case _ => DeletionBegun(run, k, w.obs.uid)
  }

  ghost predicate NamesOk(wd: World) {
    forall n :: n in wd.clusters ==> wd.clusters[n].name == n
  }

  lemma PutClusterNames(wd: World, c: Cluster)
    requires NamesOk(wd)
    ensures NamesOk(PutCluster(wd, c))
  {
  }

  lemma StepNames(wd: World, id: nat, w: Worker, reply: Reply)
    requires NamesOk(wd) && !w.Done?
    ensures NamesOk(Step(wd, id, w, reply).world)
  {
    hide StepRead, AfterCleanup, PutCluster, Encode, RemoveFinalizer;
    match w
    case SendPatch(obs, _, goal, latest) =>
      if obs.name in wd.clusters {
        PutClusterNames(wd, Patched(wd.clusters[obs.name], goal, latest));
      }
    case AdoptPatch(latest) =>
      if latest.name in wd.clusters {
        PutClusterNames(wd, wd.clusters[latest.name].(finalizers := latest.finalizers + [FINALIZER]));
      }
    case _ =>
  }

  lemma NextNames(s: System, s': System)
    requires NamesOk(s.world) && Next(s, s')
    ensures NamesOk(s'.world)
  {
    hide Step;
    if id, reply :| Works(s, s', id, reply) {
      StepNames(s.world, id, s.workers[id], reply);
    }
  }

  lemma {:induction false} RunNames(run: seq<System>, k: nat)
    requires IsRun(run) && k < |run|
    ensures NamesOk(run[k].world)
  {
    hide Next;
    if k > 0 {
      RunNames(run, k - 1);
      assert Next(run[k - 1], run[k - 1 + 1]);
      NextNames(run[k - 1], run[k]);
    }
  }

  // ---------- the history of every worker ----------

  lemma HistoryStays(run: seq<System>, k: nat, w: Worker)
    requires History(run, k, w)
    ensures History(run, k + 1, w)
  {
    hide OtherReferences;
    BegunStays(run, k);
    UnsharedStays(run, k);
    hide UnsharedBy, DeletionBegun;
  }

  lemma BegunStays(run: seq<System>, k: nat)
    ensures forall uid :: DeletionBegun(run, k, uid) ==> DeletionBegun(run, k + 1, uid)
  {
    hide DeletingAt;
    forall uid | DeletionBegun(run, k, uid)
      ensures DeletionBegun(run, k + 1, uid)
    {
      var h: nat, obs: Cluster :| h <= k && DeletingAt(run, h, obs) && obs.uid == uid;
      assert h <= k + 1 && DeletingAt(run, h, obs) && obs.uid == uid;
    }
  }

  lemma UnsharedStays(run: seq<System>, k: nat)
    ensures forall obs :: UnsharedBy(run, k, obs) ==> UnsharedBy(run, k + 1, obs)
  {
    hide DeletionBegun, OtherReferences;
  }

  lemma StepHistory(run: seq<System>, k: nat, w: Worker, id: nat, reply: Reply)
    requires k < |run| && NamesOk(run[k].world) && !w.Done? && History(run, k, w)
    ensures History(run, k, Step(run[k].world, id, w, reply).worker)
  {
    hide StepRead, StepVerify, StepCredentialDelete, StepSecretDelete, StepPatch, StepAdopt, History, NamesOk;
    DoneHistory(run, k);
    if !IsRead(w) {
      WriteHistory(run, k, w, id, reply);
    } else if reply.Normal? {
      ReadHistory(run, k, w);
    }
  }

  lemma DoneHistory(run: seq<System>, k: nat)
    ensures History(run, k, Done(Retry))
  {
  }

  lemma WriteHistory(run: seq<System>, k: nat, w: Worker, id: nat, reply: Reply)
    requires k < |run| && !w.Done? && !IsRead(w) && History(run, k, w)
    ensures History(run, k, Step(run[k].world, id, w, reply).worker)
  {
    hide OtherReferences, RunSpec, PutCluster, RemoveSecret, Encode, DeletionBegun, UnsharedBy, StoredBy, RequestsCredentialDeletion,
         FirstState, ValidateBinding, BindingMatches;
  }

  lemma ReadHistory(run: seq<System>, k: nat, w: Worker)
    requires k < |run| && NamesOk(run[k].world) && IsRead(w) && History(run, k, w)
    ensures History(run, k, StepRead(run[k].world, w))
  {
    hide OtherReferences, Paused, SameInputs, SameSecret, OpenSession, ReadCheckpoint, BindingMatches, DeletionBegun, UnsharedBy,
         StoredBy, ClusterNameFor, NamesOk;
    match w
    case Start(name) =>
      if name in run[k].world.clusters {
        StoredNow(run, k, name);
      }
    case CheckPause(obs) =>
      if obs.deleting {
        StoredBegins(run, k, obs);
      }
    case RecheckReferences(obs, seen, goal) =>
      if !OtherReferences(run[k].world, obs) {
        UnsharedNow(run, k, obs);
      }
    case _ =>
  }

  lemma StoredNow(run: seq<System>, k: nat, name: string)
    requires k < |run| && NamesOk(run[k].world) && name in run[k].world.clusters
    ensures StoredBy(run, k, run[k].world.clusters[name])
  {
  }

  lemma StoredBegins(run: seq<System>, k: nat, obs: Cluster)
    requires StoredBy(run, k, obs) && obs.deleting
    ensures DeletionBegun(run, k, obs.uid)
  {
    var h: nat :| h <= k && h < |run| && obs.name in run[h].world.clusters && run[h].world.clusters[obs.name] == obs;
    assert DeletingAt(run, h, obs);
  }

  lemma UnsharedNow(run: seq<System>, k: nat, obs: Cluster)
    requires k < |run| && DeletionBegun(run, k, obs.uid) && !OtherReferences(run[k].world, obs)
    ensures UnsharedBy(run, k, obs)
  {
    hide DeletionBegun, OtherReferences;
  }

  lemma {:induction false} WorkersHaveHistories(run: seq<System>, k: nat)
    requires IsRun(run) && k < |run|
    ensures forall id :: id in run[k].workers ==> History(run, k, run[k].workers[id])
  {
    hide History, EnvironmentStep, Step, InitialWorld;
    if k > 0 {
      WorkersHaveHistories(run, k - 1);
      RunNames(run, k - 1);
      var s, s' := run[k - 1], run[k - 1 + 1];
      assert Next(s, s');
      forall id | id in s'.workers
        ensures History(run, k, s'.workers[id])
      {
        if id in s.workers && s'.workers[id] == s.workers[id] {
          HistoryStays(run, k - 1, s'.workers[id]);
        } else if name :| Starts(s, s', name) {
          StartHistory(run, k, name);
        } else {
          var reply :| Works(s, s', id, reply);
          StepHistory(run, k - 1, s.workers[id], id, reply);
          HistoryStays(run, k - 1, s'.workers[id]);
        }
      }
    }
  }

  lemma StartHistory(run: seq<System>, k: nat, name: string)
    ensures History(run, k, Start(name))
  {
  }

  // ---------- shared-Secret safety ----------

  /** Once deletion of this object has begun, a Secret that nobody else uses stays that way; the
      set of its other users never growing is a special case. */
  ghost predicate NoNewReferences(run: seq<System>, obs: Cluster) {
    forall i: nat, j: nat :: i <= j < |run| && DeletionBegun(run, i, obs.uid) && OtherReferences(run[j].world, obs) ==>
      OtherReferences(run[i].world, obs)
  }

  /** Over every interleaving: a worker about to send a credential DELETE or a Secret DELETE
      does so while no other UID references the Secret. */
  lemma SharedSecretSafety(run: seq<System>, k: nat, id: nat)
    requires IsRun(run) && k < |run| && id in run[k].workers
    requires run[k].workers[id].SendCredentialDelete? || run[k].workers[id].SendSecretDelete?
    requires NoNewReferences(run, run[k].workers[id].obs)
    ensures !OtherReferences(run[k].world, run[k].workers[id].obs)
  {
    hide IsRun, DeletionBegun, OtherReferences, History;
    WorkersHaveHistories(run, k);
    var obs := run[k].workers[id].obs;
    SendersAreUnshared(run, k, run[k].workers[id]);
    var j: nat :| j <= k && j < |run| && DeletionBegun(run, j, obs.uid) && !OtherReferences(run[j].world, obs);
  }

  lemma SendersAreUnshared(run: seq<System>, k: nat, w: Worker)
    requires History(run, k, w) && (w.SendCredentialDelete? || w.SendSecretDelete?)
    ensures UnsharedBy(run, k, w.obs)
  {
    hide UnsharedBy, DeletionBegun;
  }

  /** The same about commits: when a step records the DELETE of a credential or a Secret, no
      other UID references the Secret at that instant. */
  lemma SharedSecretSurvives(run: seq<System>, k: nat, id: nat, reply: Reply)
    requires IsRun(run) && k + 1 < |run| && Works(run[k], run[k + 1], id, reply)
    requires var e := Step(run[k].world, id, run[k].workers[id], reply);
      e.world.credentials != run[k].world.credentials || e.world.secrets != run[k].world.secrets
    requires NoNewReferences(run, run[k].workers[id].obs)
    ensures !OtherReferences(run[k].world, run[k].workers[id].obs)
  {
    OnlyDeletesDelete(run[k].world, id, run[k].workers[id], reply);
    SharedSecretSafety(run, k, id);
  }

  lemma OnlyDeletesDelete(wd: World, id: nat, w: Worker, reply: Reply)
    requires !w.Done?
    requires var e := Step(wd, id, w, reply); e.world.credentials != wd.credentials || e.world.secrets != wd.secrets
    ensures w.SendCredentialDelete? || w.SendSecretDelete?
  {
    hide StepRead, AfterCleanup, RunSpec, Encode;
  }
}
