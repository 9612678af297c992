/** The blocked-but-safe states: a recorded deletion that cannot be resumed stays as it is.

    The run need not be one the controller alone produced: the checkpoint may hold any text. */
module Blocked {
  import opened Results
  import opened Credentials
  import opened Objects
  import opened Lifecycle
  import opened Checkpoint
  import opened Runner
  import opened RunnerSafety
  import opened Protocol
  import opened Evolution
  import opened Sharing
  import opened Invariants
  import opened StepSafety
  import ApiErrors

  /** A piece of a run, from any state on. */
  ghost predicate IsExecution(run: seq<System>) {
    run != [] && forall i :: 0 <= i < |run| - 1 ==> Next(run[i], run[i + 1])
  }

  /** Why a checkpoint cannot be resumed: nobody can read it, or its first phase is recorded and
      the recorded credential, or the recorded Secret, is gone. */
  datatype Cause = Unreadable | CredentialGone | SecretGone

  ghost predicate BlockedBy(cause: Cause, wd: World, text: string) {
    match Read(Some(text))
    case Absent => false
    case Bad => cause.Unreadable?
    case Good(s) =>
      s.phase == STARTED
      && ((cause.CredentialGone? && KeyOf(s.cloud) !in wd.credentials) || (cause.SecretGone? && SecretIsGone(wd, s.secretUID)))
  }

  /** The name of the object a worker deals with. */
  function NameOf(w: Worker): Option<string> {
    match w
    case Start(name) => Some(name)
    case Done(_) => None
    case AdoptCheckPause(latest) => Some(latest.name)
    case AdoptPatch(latest) => Some(latest.name)
    case _ => Some(w.obs.name)
  }

  /** A deleting object that carries this checkpoint text, if the UID is stored at all; it lives
      under one name. */
  ghost predicate Holds(wd: World, name: string, uid: string, text: string) {
    && NamesOk(wd) && uid in wd.clusterUIDs
    && (forall n :: n in wd.clusters && wd.clusters[n].uid == uid ==>
          n == name && wd.clusters[n].deleting && CheckpointText(wd.clusters[n]) == Some(text))
  }

  ghost predicate Stored(wd: World, name: string, uid: string) {
    name in wd.clusters && wd.clusters[name].uid == uid
  }

  /** The worker read the blocked object and has not got past what blocks it. */
  ghost predicate OnBlockedPath(cause: Cause, uid: string, text: string, w: Worker) {
    && (w.CheckPause? || w.ReadSecret? || w.Resume?)
    && w.obs.uid == uid && w.obs.deleting && CheckpointText(w.obs) == Some(text)
    && (w.ReadSecret? ==> Read(Some(text)).Good?)
    && (w.Resume? ==> cause.CredentialGone? && Read(Some(text)) == Good(w.state) && SecretMatches(w.obs, w.secret, w.state))
  }

  /** A worker on this name is only starting, or is blocked, or works on another object, now that
      this one has gone. */
  ghost predicate Harmless(cause: Cause, wd: World, name: string, uid: string, text: string, w: Worker) {
    NameOf(w) == Some(name) ==> w.Start? || OnBlockedPath(cause, uid, text, w) || !Stored(wd, name, uid)
  }

  // ---------- one step ----------

  /** A step changes at most the object its worker names, and no UID. */
  ghost predicate TouchesOnly(wd: World, wd': World, name: Option<string>) {
    && wd'.clusterUIDs == wd.clusterUIDs
    && (forall n :: n in wd'.clusters ==>
          && n in wd.clusters && wd'.clusters[n].uid == wd.clusters[n].uid && wd'.clusters[n].deleting == wd.clusters[n].deleting
          && (Some(n) != name ==> wd'.clusters[n] == wd.clusters[n]))
    && (forall n :: n in wd.clusters && Some(n) != name ==> n in wd'.clusters)
  }

  lemma PutTouchesOnly(wd: World, c: Cluster)
    requires c.name in wd.clusters && c.uid == wd.clusters[c.name].uid && c.deleting == wd.clusters[c.name].deleting
    ensures TouchesOnly(wd, PutCluster(wd, c), Some(c.name))
  {
  }

  lemma NothingTouched(wd: World, wd': World, name: Option<string>)
    requires wd'.clusters == wd.clusters && wd'.clusterUIDs == wd.clusterUIDs
    ensures TouchesOnly(wd, wd', name)
  {
  }

  lemma PatchTouchesOnly(wd: World, id: nat, obs: Cluster, goal: Goal, latest: Cluster, reply: Reply)
    requires NamesOk(wd)
    ensures TouchesOnly(wd, StepPatch(wd, id, obs, goal, latest, reply).world, Some(obs.name))
  {
    hide TouchesOnly, PutCluster, Encode, RemoveFinalizer;
    NothingTouched(wd, wd, Some(obs.name));
    if obs.name in wd.clusters {
      PutTouchesOnly(wd, Patched(wd.clusters[obs.name], goal, latest));
    }
  }

  lemma AdoptTouchesOnly(wd: World, id: nat, latest: Cluster, reply: Reply)
    requires NamesOk(wd)
    ensures TouchesOnly(wd, StepAdopt(wd, id, latest, reply).world, Some(latest.name))
  {
    hide TouchesOnly, PutCluster;
    NothingTouched(wd, wd, Some(latest.name));
    if latest.name in wd.clusters {
      PutTouchesOnly(wd, wd.clusters[latest.name].(finalizers := latest.finalizers + [FINALIZER]));
    }
  }

  lemma StepTouchesOnly(wd: World, id: nat, w: Worker, reply: Reply)
    requires !w.Done? && NamesOk(wd)
    ensures TouchesOnly(wd, Step(wd, id, w, reply).world, NameOf(w))
  {
    hide TouchesOnly, StepRead, AfterCleanup, RunSpec, StepPatch, StepAdopt;
    if w.SendPatch? {
      PatchTouchesOnly(wd, id, w.obs, w.goal, w.latest, reply);
    } else if w.AdoptPatch? {
      AdoptTouchesOnly(wd, id, w.latest, reply);
    } else {
      NothingTouched(wd, Step(wd, id, w, reply).world, NameOf(w));
    }
  }

  /** A worker on the blocked path neither writes nor gets past it. */
  lemma BlockedWorkerStops(cause: Cause, wd: World, uid: string, text: string, id: nat, w: Worker, reply: Reply)
    requires BlockedBy(cause, wd, text) && OnBlockedPath(cause, uid, text, w)
    ensures var t := Step(wd, id, w, reply);
      t.world == wd && t.events == [] && (t.worker.Done? || OnBlockedPath(cause, uid, text, t.worker))
  {
    hide Read, BindingMatches, SecretMatches, SelectedCloud, OpenSession, Paused;
    match w
    case CheckPause(obs) =>
    case ReadSecret(obs) => BlockedAtSecret(cause, wd, text, obs);
    case Resume(obs, secret, s) => BlockedAtSession(wd, obs, secret, s);
  }

  lemma BlockedAtSecret(cause: Cause, wd: World, text: string, obs: Cluster)
    requires BlockedBy(cause, wd, text) && CheckpointText(obs) == Some(text) && Read(Some(text)).Good?
    ensures var w := StepRead(wd, ReadSecret(obs));
      || w.Done?
      || (w.Resume? && cause.CredentialGone? && w.obs == obs && Read(Some(text)) == Good(w.state) && SecretMatches(obs, w.secret, w.state))
  {
    hide Read, SelectedCloud, DescribeCredential, ConfigMatches;
  }

  lemma BlockedAtSession(wd: World, obs: Cluster, secret: Secret, s: State)
    requires KeyOf(s.cloud) !in wd.credentials && SecretMatches(obs, secret, s)
    ensures OpenSession(wd, obs, secret).None?
  {
    hide DescribeCredential;
  }

  lemma StartIsHarmless(cause: Cause, wd: World, name: string, uid: string, text: string, id: nat, reply: Reply)
    requires Holds(wd, name, uid, text)
    ensures var t := Step(wd, id, Start(name), reply);
      t.world == wd && t.events == [] && Harmless(cause, wd, name, uid, text, t.worker)
  {
    hide CheckpointText;
  }

  /** A worker deals with one name throughout. */
  lemma StepKeepsName(wd: World, id: nat, w: Worker, reply: Reply)
    requires !w.Done? && NamesOk(wd)
    ensures var w' := Step(wd, id, w, reply).worker; w'.Done? || NameOf(w') == NameOf(w)
  {
    hide RunSpec, Encode, PutCluster, RemoveSecret, Paused, OtherReferences, OpenSession, ReadCheckpoint, BindingMatches,
         SameInputs, SameSecret, FirstState, ValidateBinding;
  }

  /** Whoever takes a step, the object stays exactly as it is, checkpoint and finalizers
      included, and a worker on it writes nothing anywhere. */
  lemma StepHolds(cause: Cause, wd: World, name: string, uid: string, text: string, id: nat, w: Worker, reply: Reply)
    requires Holds(wd, name, uid, text) && BlockedBy(cause, wd, text) && !w.Done? && Harmless(cause, wd, name, uid, text, w)
    ensures var t := Step(wd, id, w, reply);
      && Holds(t.world, name, uid, text) && Harmless(cause, t.world, name, uid, text, t.worker)
      && (Stored(t.world, name, uid) ==> Stored(wd, name, uid))
      && (Stored(wd, name, uid) ==> Stored(t.world, name, uid) && t.world.clusters[name] == wd.clusters[name])
      && (Stored(wd, name, uid) && NameOf(w) == Some(name) ==> t.world == wd && t.events == [])
  {
    hide Read, CheckpointText, Step, BlockedBy, OnBlockedPath;
    StepNames(wd, id, w, reply);
    StepTouchesOnly(wd, id, w, reply);
    StepKeepsName(wd, id, w, reply);
    if w == Start(name) {
      StartIsHarmless(cause, wd, name, uid, text, id, reply);
    } else if OnBlockedPath(cause, uid, text, w) {
      BlockedWorkerStops(cause, wd, uid, text, id, w, reply);
    }
  }

  lemma EnvironmentHolds(wd: World, wd': World, name: string, uid: string, text: string)
    requires EnvironmentStep(wd, wd') && Holds(wd, name, uid, text)
    ensures Holds(wd', name, uid, text) && (Stored(wd', name, uid) ==> Stored(wd, name, uid))
  {
    hide CheckpointText;
  }

  // ---------- for ever ----------

  /** Nothing has happened to the object, and no worker is about to change that. */
  ghost predicate StillBlocked(cause: Cause, s: System, name: string, uid: string, text: string) {
    && Holds(s.world, name, uid, text)
    && forall id :: id in s.workers ==> Harmless(cause, s.world, name, uid, text, s.workers[id])
  }

  /** If a worker takes this step, it leaves the object alone, and one on this name writes nothing
      anywhere. */
  ghost predicate LeftAlone(s: System, s': System, name: string, uid: string) {
    forall id, reply :: Works(s, s', id, reply) && Stored(s.world, name, uid) ==>
      && Stored(s'.world, name, uid) && s'.world.clusters[name] == s.world.clusters[name]
      && (NameOf(s.workers[id]) == Some(name) ==> s'.world == s.world && s'.trace == s.trace)
  }

  lemma NextStaysBlocked(cause: Cause, s: System, s': System, name: string, uid: string, text: string)
    requires StillBlocked(cause, s, name, uid, text) && BlockedBy(cause, s.world, text) && Next(s, s')
    ensures StillBlocked(cause, s', name, uid, text)
    ensures Stored(s'.world, name, uid) ==> Stored(s.world, name, uid)
    ensures LeftAlone(s, s', name, uid)
  {
    hide Holds, Step, EnvironmentStep, BlockedBy, OnBlockedPath;
    forall id, reply | Works(s, s', id, reply)
      ensures Holds(s'.world, name, uid, text)
      ensures Stored(s'.world, name, uid) ==> Stored(s.world, name, uid)
      ensures forall other :: other in s'.workers ==> Harmless(cause, s'.world, name, uid, text, s'.workers[other])
      ensures Stored(s.world, name, uid) ==>
        && Stored(s'.world, name, uid) && s'.world.clusters[name] == s.world.clusters[name]
        && (NameOf(s.workers[id]) == Some(name) ==> s'.world == s.world && s'.trace == s.trace)
    {
      StepHolds(cause, s.world, name, uid, text, id, s.workers[id], reply);
    }
    if EnvironmentMoves(s, s') {
      EnvironmentHolds(s.world, s'.world, name, uid, text);
    }
  }

  /** No reconcile of this name is under way. */
  ghost predicate Unattended(s: System, name: string) {
    forall id :: id in s.workers ==> NameOf(s.workers[id]) != Some(name)
  }

  /** While the cause lasts, every reconcile begun afterwards writes nothing: at each later step
      a worker on the object changes nothing, and any other leaves the object alone. Only
      somebody else can edit it, and its checkpoint stays. */
  lemma {:induction false} BlockedForEver(cause: Cause, run: seq<System>, name: string, uid: string, text: string, k: nat)
    requires IsExecution(run) && k < |run|
    requires Holds(run[0].world, name, uid, text) && Unattended(run[0], name)
    requires forall i :: 0 <= i < |run| ==> BlockedBy(cause, run[i].world, text)
    ensures StillBlocked(cause, run[k], name, uid, text)
    ensures k + 1 < |run| ==> LeftAlone(run[k], run[k + 1], name, uid)
  {
    hide StillBlocked, Next, LeftAlone, BlockedBy;
    if k == 0 {
      UnattendedIsBlocked(cause, run[0], name, uid, text);
    } else {
      BlockedForEver(cause, run, name, uid, text, k - 1);
      assert Next(run[k - 1], run[k - 1 + 1]);
      NextStaysBlocked(cause, run[k - 1], run[k], name, uid, text);
    }
    if k + 1 < |run| {
      assert Next(run[k], run[k + 1]);
      NextStaysBlocked(cause, run[k], run[k + 1], name, uid, text);
    }
  }

  lemma UnattendedIsBlocked(cause: Cause, s: System, name: string, uid: string, text: string)
    requires Holds(s.world, name, uid, text) && Unattended(s, name)
    ensures StillBlocked(cause, s, name, uid, text)
  {
    hide Holds;
  }

  // ---------- with older reconciles still in flight ----------

  ghost predicate NewAreHarmless(cause: Cause, s: System, name: string, uid: string, text: string, first: nat) {
    forall id :: id in s.workers && first <= id ==> Harmless(cause, s.world, name, uid, text, s.workers[id])
  }

  /** `LeftAlone`, for the reconciles begun from `first` on. */
  ghost predicate LeftAloneByNew(s: System, s': System, name: string, uid: string, first: nat) {
    forall id, reply :: Works(s, s', id, reply) && first <= id && Stored(s.world, name, uid) ==>
      && Stored(s'.world, name, uid) && s'.world.clusters[name] == s.world.clusters[name]
      && (NameOf(s.workers[id]) == Some(name) ==> s'.world == s.world && s'.trace == s.trace)
  }

  lemma NextNeverStores(s: System, s': System, name: string, uid: string, text: string)
    requires Next(s, s') && Holds(s.world, name, uid, text)
    ensures Stored(s'.world, name, uid) ==> Stored(s.world, name, uid)
    ensures s.nextID <= s'.nextID
  {
    hide Step, EnvironmentStep, CheckpointText;
    if EnvironmentMoves(s, s') {
      EnvironmentHolds(s.world, s'.world, name, uid, text);
    } else if id, reply :| Works(s, s', id, reply) {
      StepTouchesOnly(s.world, id, s.workers[id], reply);
    }
  }

  lemma NewStayHarmless(cause: Cause, s: System, s': System, name: string, uid: string, text: string, first: nat)
    requires Next(s, s') && first <= s.nextID && Holds(s.world, name, uid, text) && BlockedBy(cause, s.world, text)
    requires NewAreHarmless(cause, s, name, uid, text, first)
    ensures NewAreHarmless(cause, s', name, uid, text, first) && LeftAloneByNew(s, s', name, uid, first)
  {
    hide Holds, Step, EnvironmentStep, BlockedBy, OnBlockedPath, Stored;
    NextNeverStores(s, s', name, uid, text);
    forall id, reply | Works(s, s', id, reply) && first <= id
      ensures Harmless(cause, s'.world, name, uid, text, s'.workers[id])
      ensures Stored(s.world, name, uid) ==>
        && Stored(s'.world, name, uid) && Same(s.world, s'.world, name)
        && (NameOf(s.workers[id]) == Some(name) ==> s'.world == s.world && s'.trace == s.trace)
    {
      StepHolds(cause, s.world, name, uid, text, id, s.workers[id], reply);
      StoredIsThere(s.world, name, uid);
      StoredIsThere(s'.world, name, uid);
    }
    StoredIsThere(s.world, name, uid);
    StoredIsThere(s'.world, name, uid);
  }

  /** The name holds the same object in both worlds. */
  ghost predicate Same(wd: World, wd': World, name: string) {
    name in wd.clusters && name in wd'.clusters && wd'.clusters[name] == wd.clusters[name]
  }

  lemma StoredIsThere(wd: World, name: string, uid: string)
    ensures Stored(wd, name, uid) ==> name in wd.clusters
  {
  }

  /** With older reconciles still in flight: while the object carries this text and the cause lasts,
      every reconcile begun since changes nothing, whatever the older ones do elsewhere. */
  lemma {:induction false} NewReconcilesAreBlocked(cause: Cause, run: seq<System>, name: string, uid: string, text: string, k: nat)
    requires IsExecution(run) && k < |run|
    requires forall id :: id in run[0].workers ==> id < run[0].nextID
    requires forall i :: 0 <= i < |run| ==> Holds(run[i].world, name, uid, text) && BlockedBy(cause, run[i].world, text)
    ensures run[0].nextID <= run[k].nextID && NewAreHarmless(cause, run[k], name, uid, text, run[0].nextID)
    ensures k + 1 < |run| ==> LeftAloneByNew(run[k], run[k + 1], name, uid, run[0].nextID)
  {
    hide Holds, Next, LeftAloneByNew, BlockedBy, Harmless;
    if k > 0 {
      NewReconcilesAreBlocked(cause, run, name, uid, text, k - 1);
      assert Next(run[k - 1], run[k - 1 + 1]);
      NextNeverStores(run[k - 1], run[k], name, uid, text);
      NewStayHarmless(cause, run[k - 1], run[k], name, uid, text, run[0].nextID);
    }
    if k + 1 < |run| {
      assert Next(run[k], run[k + 1]);
      NewStayHarmless(cause, run[k], run[k + 1], name, uid, text, run[0].nextID);
    }
  }

  // ---------- two of the causes last by themselves ----------

  lemma {:induction false} CauseLasts(cause: Cause, run: seq<System>, text: string, k: nat)
    requires IsExecution(run) && k < |run| && !cause.CredentialGone?
    requires BlockedBy(cause, run[0].world, text)
    ensures BlockedBy(cause, run[k].world, text)
  {
    hide Next, Read;
    if k > 0 {
      CauseLasts(cause, run, text, k - 1);
      assert Next(run[k - 1], run[k - 1 + 1]);
      if cause.SecretGone? {
        GoneSecretStaysGone(run[k - 1], run[k], Read(Some(text)).state.secretUID);
      }
    }
  }

  lemma GoneSecretStaysGone(s: System, s': System, uid: string)
    requires Next(s, s') && SecretIsGone(s.world, uid)
    ensures SecretIsGone(s'.world, uid)
  {
    hide Step, EnvironmentEdit, FreshCluster;
    if id, reply :| Works(s, s', id, reply) {
      StepAddsNoSecret(s.world, id, s.workers[id], reply);
    }
  }

  lemma StepAddsNoSecret(wd: World, id: nat, w: Worker, reply: Reply)
    requires !w.Done?
    ensures var wd' := Step(wd, id, w, reply).world;
      && wd'.secretNames == wd.secretNames
      && forall n :: n in wd'.secrets ==> exists m :: m in wd.secrets && wd'.secrets[n].uid == wd.secrets[m].uid
  {
    hide StepRead, AfterCleanup, RunSpec, Encode, PutCluster, RemoveSecret, ApiErrors.ClassifyApplicationCredentialDelete, VerdictOfError;
    PutAddsNoSecret(wd);
    RemoveAddsNoSecret(wd);
  }

  lemma PutAddsNoSecret(wd: World)
    ensures forall c :: PutCluster(wd, c).secrets == wd.secrets && PutCluster(wd, c).secretNames == wd.secretNames
  {
  }

  lemma RemoveAddsNoSecret(wd: World)
    ensures forall k :: k in wd.secrets ==>
      var wd' := RemoveSecret(wd, wd.secrets[k]);
      wd'.secretNames == wd.secretNames && forall n :: n in wd'.secrets ==> exists m :: m in wd.secrets && wd'.secrets[n].uid == wd.secrets[m].uid
  {
  }

  /** How an object gets there: the DELETE of its credential takes effect, whatever answer comes
      back. Only a confirmed one lets this reconcile, and no other, go on to record it. */
  lemma LostAnswerBlocks(run: seq<System>, i: nat, id: nat, reply: Reply)
    requires IsRun(run) && i + 1 < |run| && Works(run[i], run[i + 1], id, reply)
    requires run[i].workers[id].SendCredentialDelete? && reply.Answered? && reply.applied
    ensures var obs := run[i].workers[id].obs;
      && CheckpointText(obs).Some? && BlockedBy(CredentialGone, run[i + 1].world, CheckpointText(obs).value)
      && (run[i + 1].workers[id].Done? <==> !ApiErrors.Confirms(reply.error))
  {
    RunsAreSafe(run, i);
    var w := run[i].workers[id];
    assert WorkerOk(run[i].world, run[i].trace, id, w);
    hide IsRun, Inv, Read, SharedOk, ObsOk, SeenOk;
    GoalDeletesCredential(run[i].world, run[i].trace, id, w.obs, w.seen, w.state, w.session);
    RecordedCredentialIDIsSet(w.obs);
    GoodHasText(w.obs);
    ApiErrors.ConfirmedIff(reply.error);
  }

  lemma GoodHasText(c: Cluster)
    requires ReadCheckpoint(c).Good?
    ensures CheckpointText(c).Some? && ReadCheckpoint(c) == Read(Some(CheckpointText(c).value))
  {
    hide Decode, IsValid;
  }
}
