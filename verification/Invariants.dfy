/** What every reachable state of the protocol satisfies.

    Each worker's knowledge is a fact about its snapshots and about events already in the trace;
    both survive whatever the others do, so a step is checked for the worker that takes it. */
module Invariants {
  import opened Results
  import opened Credentials
  import opened Objects
  import opened Lifecycle
  import opened Checkpoint
  import opened Runner
  import opened RunnerSafety
  import opened Protocol
  import opened Evolution
  import ApiErrors

  // ---------- what events need before them ----------

  ghost predicate Recorded(past: seq<Event>, uid: string, s: State) {
    exists id :: Saved(id, uid, s) in past
  }

  /** This worker verified these inputs against an inventory with nothing left to delete. */
  ghost predicate CleanedBy(past: seq<Event>, id: nat, obs: Cluster, secret: Secret, b: Binding) {
    exists inv :: Cleaned(id, obs, secret, b, inv) in past
  }

  /** This worker's credential DELETE was confirmed by its answer. */
  ghost predicate ConfirmedBy(past: seq<Event>, id: nat, uid: string, s: State, session: Binding) {
    exists answer :: CredentialDeleteConfirmed(id, uid, s, session, answer) in past
  }

  /** The scope of a cleanup: object, generation, effective name and effective volumes policy. */
  ghost predicate SameScope(operatorDefault: string, obs: Cluster, c: Cluster) {
    && obs.uid == c.uid && obs.generation == c.generation && ClusterNameFor(obs) == ClusterNameFor(c)
    && VolumesPolicyFor(operatorDefault, obs) == VolumesPolicyFor(operatorDefault, c)
  }

  ghost predicate CleanedScope(operatorDefault: string, past: seq<Event>, id: nat, c: Cluster) {
    exists obs, secret, b :: CleanedBy(past, id, obs, secret, b) && SameScope(operatorDefault, obs, c)
  }

  ghost predicate CleanedForState(operatorDefault: string, past: seq<Event>, id: nat, uid: string, s: State) {
    exists obs, secret, b :: CleanedBy(past, id, obs, secret, b)
      && obs.uid == uid == s.clusterUID && ClusterNameFor(obs) == s.clusterName
      && VolumesPolicyFor(operatorDefault, obs) == s.volumesPolicy
      && secret.uid == s.secretUID && secret.name == s.secretName && b == s.cloud
  }

  /** The object still has the name and volumes policy that were recorded. */
  ghost predicate RecordedScope(operatorDefault: string, c: Cluster, s: State) {
    c.uid == s.clusterUID && ClusterNameFor(c) == s.clusterName && VolumesPolicyFor(operatorDefault, c) == s.volumesPolicy
  }

  /** The finalizer of `uid` has already been removed on the checkpoint path. */
  ghost predicate FinishedWithCheckpoint(past: seq<Event>, uid: string) {
    exists id, c :: FinalizerRemoved(id, c) in past && c.uid == uid && ReadCheckpoint(c).Good?
  }

  /** The write-ahead discipline: what must already be in the trace when an event is added. */
  ghost predicate Justified(operatorDefault: string, past: seq<Event>, e: Event) {
    match e
    case Cleaned(_, obs, _, _, inv) =>
      Drained(inv, Request(ClusterNameFor(obs), VolumesPolicyFor(operatorDefault, obs) == POLICY_DELETE))
    case Saved(id, uid, s) =>
      && IsValid(s)
      && (s.phase == STARTED ==> CleanedForState(operatorDefault, past, id, uid, s))
      && (s.phase == CONFIRMED ==>
            ConfirmedBy(past, id, uid, s.(phase := STARTED), s.cloud))
    case CredentialDeleteSent(_, uid, s, session) => s.phase == STARTED && Recorded(past, uid, s) && session == s.cloud
    case CredentialDeleteConfirmed(id, uid, s, session, answer) =>
      CredentialDeleteSent(id, uid, s, session) in past && ApiErrors.Confirms(answer)
    case SecretDeleted(_, uid, s, secret) =>
      && s.phase == CONFIRMED && Recorded(past, uid, s) && !FinishedWithCheckpoint(past, uid)
      && secret.uid == s.secretUID && secret.name == s.secretName && RequestsCredentialDeletion(secret)
      && DescribeCredential(secret.clouds, s.cloud.cloudName).Ok?
      && ConfigMatches(DescribeCredential(secret.clouds, s.cloud.cloudName).value, s.cloud)
    case FinalizerRemoved(id, c) =>
      && !ReadCheckpoint(c).Bad?
      && (ReadCheckpoint(c).Absent? ==> CleanedScope(operatorDefault, past, id, c))
      && (ReadCheckpoint(c).Good? ==>
            && ReadCheckpoint(c).state.phase == CONFIRMED && Recorded(past, c.uid, ReadCheckpoint(c).state)
            && RecordedScope(operatorDefault, c, ReadCheckpoint(c).state))
    case FinalizerAdded(_, _) => true
  }

  ghost predicate TraceJustified(operatorDefault: string, trace: seq<Event>) {
    forall i :: 0 <= i < |trace| ==> Justified(operatorDefault, trace[..i], trace[i])
  }

  // ---------- stored objects ----------

  ghost predicate SecretKnown(wd: World, s: State) {
    s.secretUID in wd.secretNames && wd.secretNames[s.secretUID] == s.secretName
  }

  /** An object's checkpoint is absent, or exactly one the controller recorded. */
  ghost predicate CheckpointOk(wd: World, tr: seq<Event>, c: Cluster) {
    match ReadCheckpoint(c)
    case Absent => true
    case Bad => false
    case Good(s) => CheckpointText(c) == Some(Encode(s)) && Recorded(tr, c.uid, s) && s.clusterUID == c.uid && SecretKnown(wd, s)
  }

  ghost predicate StoreOk(wd: World, tr: seq<Event>) {
    forall n :: n in wd.clusters ==> CheckpointOk(wd, tr, wd.clusters[n])
  }

  /** `s'` is `s` or its next phase. */
  predicate Advances(s: State, s': State) {
    s' == s || (s.phase == STARTED && s' == s.(phase := CONFIRMED))
  }

  /** What was recorded for a UID is what its object holds, up to the phase reached. */
  ghost predicate RecordsAreStored(wd: World, tr: seq<Event>) {
    forall id, u, s :: Saved(id, u, s) in tr ==>
      && u in wd.clusterUIDs
      && forall n :: n in wd.clusters && wd.clusters[n].uid == u ==>
           ReadCheckpoint(wd.clusters[n]).Good? && Advances(s, ReadCheckpoint(wd.clusters[n]).state)
  }

  /** All records of one UID agree on everything but the phase. */
  ghost predicate RecordsAgree(tr: seq<Event>) {
    forall i, j, u, s, t :: Saved(i, u, s) in tr && Saved(j, u, t) in tr ==> s.(phase := STARTED) == t.(phase := STARTED)
  }

  /** A finalizer goes, on the checkpoint path, only after the recorded Secret. */
  ghost predicate FinishedSecretsAreGone(wd: World, tr: seq<Event>) {
    forall id, c :: FinalizerRemoved(id, c) in tr && ReadCheckpoint(c).Good? ==>
      SecretIsGone(wd, ReadCheckpoint(c).state.secretUID)
  }

  // ---------- workers ----------

  ghost predicate ObsOk(wd: World, tr: seq<Event>, obs: Cluster) {
    IsSnapshot(wd, obs) && CheckpointOk(wd, tr, obs)
  }

  ghost predicate SeenOk(wd: World, obs: Cluster, seen: Option<Secret>) {
    seen.Some? ==> IsSecretSnapshot(wd, seen.value) && seen.value.name == obs.identity.name
  }

  ghost predicate ResumesState(wd: World, obs: Cluster, seen: Option<Secret>, s: State, phase: string) {
    ReadCheckpoint(obs) == Good(s) && s.phase == phase && BindingMatches(wd.operatorDefault, obs, seen, s)
  }

  /** The first record a worker may write: a valid one for the inputs it cleaned. */
  ghost predicate FirstStateOk(wd: World, tr: seq<Event>, id: nat, obs: Cluster, secret: Secret, s: State) {
    && ReadCheckpoint(obs).Absent? && IsValid(s) && s == FirstState(wd, obs, secret, s.cloud)
    && CleanedBy(tr, id, obs, secret, s.cloud) && BindingMatches(wd.operatorDefault, obs, Some(secret), s)
  }

  ghost predicate GoalOk(wd: World, tr: seq<Event>, id: nat, obs: Cluster, seen: Option<Secret>, goal: Goal) {
    match goal
    case Finish(sole) =>
      || (ReadCheckpoint(obs).Absent? && seen.Some? && exists b :: CleanedBy(tr, id, obs, seen.value, b))
      || (sole && ReadCheckpoint(obs).Good? && ReadCheckpoint(obs).state.phase == CONFIRMED && seen.None?
          && RecordedScope(wd.operatorDefault, obs, ReadCheckpoint(obs).state)
          && SecretIsGone(wd, ReadCheckpoint(obs).state.secretUID))
    case Save(s) =>
      || (seen.Some? && FirstStateOk(wd, tr, id, obs, seen.value, s))
      || (s.phase == CONFIRMED && IsValid(s) && seen.Some? && BindingMatches(wd.operatorDefault, obs, seen, s)
          && ReadCheckpoint(obs) == Good(s.(phase := STARTED))
          && ConfirmedBy(tr, id, obs.uid, s.(phase := STARTED), s.cloud))
    case DeleteCredential(s, session) => ResumesState(wd, obs, seen, s, STARTED) && session == s.cloud
    case DeleteSecret(s) => seen.Some? && !seen.value.deleting && ResumesState(wd, obs, seen, s, CONFIRMED)
  }

  /** The names reconcileDelete insists on. */
  predicate Named(obs: Cluster) {
    obs.identity.name != "" && ClusterNameFor(obs) != ""
  }

  ghost predicate WorkerOk(wd: World, tr: seq<Event>, id: nat, w: Worker) {
    match w
    case Start(_) => true
    case Done(_) => true
    case CheckPause(obs) => ObsOk(wd, tr, obs)
    case Adopt(obs) => true
    case AdoptCheckPause(latest) => IsSnapshot(wd, latest) && !latest.deleting && !HasFinalizer(latest)
    case AdoptPatch(latest) => IsSnapshot(wd, latest) && !latest.deleting && !HasFinalizer(latest)
    case ReadSecret(obs) => ObsOk(wd, tr, obs) && Named(obs)
    case Authenticate(obs, secret) => ObsOk(wd, tr, obs) && SeenOk(wd, obs, Some(secret)) && Named(obs) && ReadCheckpoint(obs).Absent?
    case Verify(obs, secret, b) => ObsOk(wd, tr, obs) && SeenOk(wd, obs, Some(secret)) && Named(obs) && ReadCheckpoint(obs).Absent?
    case CheckReferences(obs, secret, s) =>
      ObsOk(wd, tr, obs) && SeenOk(wd, obs, Some(secret)) && FirstStateOk(wd, tr, id, obs, secret, s)
    case Resume(obs, secret, s) =>
      ObsOk(wd, tr, obs) && SeenOk(wd, obs, Some(secret)) && ResumesState(wd, obs, Some(secret), s, STARTED)
    case RecheckSecret(obs, seen, goal) => ObsOk(wd, tr, obs) && SeenOk(wd, obs, seen) && GoalOk(wd, tr, id, obs, seen, goal)
    case RecheckCluster(obs, seen, goal) => ObsOk(wd, tr, obs) && SeenOk(wd, obs, seen) && GoalOk(wd, tr, id, obs, seen, goal)
    case RecheckPause(obs, seen, goal, latest) =>
      && ObsOk(wd, tr, obs) && SeenOk(wd, obs, seen) && GoalOk(wd, tr, id, obs, seen, goal)
      && IsSnapshot(wd, latest) && latest.name == obs.name && SameInputs(wd.operatorDefault, obs, latest)
    case RecheckReferences(obs, seen, goal) =>
      ObsOk(wd, tr, obs) && SeenOk(wd, obs, seen) && GoalOk(wd, tr, id, obs, seen, goal)
    case SendCredentialDelete(obs, seen, s, session) =>
      ObsOk(wd, tr, obs) && SeenOk(wd, obs, seen) && GoalOk(wd, tr, id, obs, seen, DeleteCredential(s, session))
    case SendSecretDelete(obs, secret, s) =>
      ObsOk(wd, tr, obs) && SeenOk(wd, obs, Some(secret)) && GoalOk(wd, tr, id, obs, Some(secret), DeleteSecret(s))
    case SendPatch(obs, seen, goal, latest) =>
      && ObsOk(wd, tr, obs) && SeenOk(wd, obs, seen) && GoalOk(wd, tr, id, obs, seen, goal)
      && IsSnapshot(wd, latest) && latest.name == obs.name && SameInputs(wd.operatorDefault, obs, latest)
      && (goal.Finish? || goal.Save?) && (NeedsSoleFinalizer(goal) ==> |latest.finalizers| == 1)
  }

  /** The part of the invariant that does not depend on the workers. */
  ghost predicate SharedOk(wd: World, tr: seq<Event>) {
    && Wellformed(wd) && StoreOk(wd, tr) && RecordsAreStored(wd, tr) && RecordsAgree(tr)
    && FinishedSecretsAreGone(wd, tr) && TraceJustified(wd.operatorDefault, tr)
  }

  ghost predicate Inv(s: System) {
    SharedOk(s.world, s.trace) && forall id :: id in s.workers ==> WorkerOk(s.world, s.trace, id, s.workers[id])
  }

  // ---------- stability: what others do does not disturb a worker ----------

  ghost predicate Grows(tr: seq<Event>, tr': seq<Event>) {
    forall e :: e in tr ==> e in tr'
  }

  lemma CheckpointStays(wd: World, wd': World, tr: seq<Event>, tr': seq<Event>, c: Cluster)
    requires Evolves(wd, wd') && Grows(tr, tr') && CheckpointOk(wd, tr, c)
    ensures CheckpointOk(wd', tr', c)
  {
    hide ReadCheckpoint, Later, Encode;
    match ReadCheckpoint(c)
    case Good(s) =>
      var id :| Saved(id, c.uid, s) in tr;
      assert Saved(id, c.uid, s) in tr';
    case _ =>
  }

  lemma ObsStays(wd: World, wd': World, tr: seq<Event>, tr': seq<Event>, obs: Cluster)
    requires Wellformed(wd) && Evolves(wd, wd') && Grows(tr, tr') && ObsOk(wd, tr, obs)
    ensures ObsOk(wd', tr', obs)
  {
    CheckpointStays(wd, wd', tr, tr', obs);
    SnapshotsPersist(wd, wd', obs);
  }

  lemma SeenStays(wd: World, wd': World, obs: Cluster, seen: Option<Secret>)
    requires Wellformed(wd) && Evolves(wd, wd') && SeenOk(wd, obs, seen)
    ensures SeenOk(wd', obs, seen)
  {
    if seen.Some? {
      SecretSnapshotsPersist(wd, wd', seen.value);
    }
  }

  lemma CleanedStays(tr: seq<Event>, tr': seq<Event>, id: nat, obs: Cluster, secret: Secret, b: Binding)
    requires Grows(tr, tr') && CleanedBy(tr, id, obs, secret, b)
    ensures CleanedBy(tr', id, obs, secret, b)
  {
    var inv :| Cleaned(id, obs, secret, b, inv) in tr;
    assert Cleaned(id, obs, secret, b, inv) in tr';
  }

  lemma ConfirmedStays(tr: seq<Event>, tr': seq<Event>, id: nat, uid: string, s: State, session: Binding)
    requires Grows(tr, tr') && ConfirmedBy(tr, id, uid, s, session)
    ensures ConfirmedBy(tr', id, uid, s, session)
  {
    var answer :| CredentialDeleteConfirmed(id, uid, s, session, answer) in tr;
    assert CredentialDeleteConfirmed(id, uid, s, session, answer) in tr';
  }

  lemma FirstStateStays(wd: World, wd': World, tr: seq<Event>, tr': seq<Event>, id: nat, obs: Cluster, secret: Secret, s: State)
    requires Evolves(wd, wd') && Grows(tr, tr') && FirstStateOk(wd, tr, id, obs, secret, s)
    ensures FirstStateOk(wd', tr', id, obs, secret, s)
  {
    hide ReadCheckpoint, Later, IsValid, BindingMatches;
    CleanedStays(tr, tr', id, obs, secret, s.cloud);
  }

  lemma GoalStays(wd: World, wd': World, tr: seq<Event>, tr': seq<Event>, id: nat, obs: Cluster, seen: Option<Secret>, goal: Goal)
    requires Evolves(wd, wd') && Grows(tr, tr') && GoalOk(wd, tr, id, obs, seen, goal)
    ensures GoalOk(wd', tr', id, obs, seen, goal)
  {
    hide ReadCheckpoint, Later, IsValid, BindingMatches;
    match goal
    case Finish(_) =>
      if ReadCheckpoint(obs).Absent? {
        var b :| CleanedBy(tr, id, obs, seen.value, b);
        CleanedStays(tr, tr', id, obs, seen.value, b);
      } else {
        GoneSecretsStayGone(wd, wd', ReadCheckpoint(obs).state.secretUID);
      }
    case Save(s) =>
      if seen.Some? && FirstStateOk(wd, tr, id, obs, seen.value, s) {
        FirstStateStays(wd, wd', tr, tr', id, obs, seen.value, s);
      } else {
        ConfirmedStays(tr, tr', id, obs.uid, s.(phase := STARTED), s.cloud);
      }
    case _ =>
  }

  lemma WorkerStays(wd: World, wd': World, tr: seq<Event>, tr': seq<Event>, id: nat, w: Worker)
    requires Wellformed(wd) && Evolves(wd, wd') && Grows(tr, tr') && WorkerOk(wd, tr, id, w)
    ensures WorkerOk(wd', tr', id, w)
  {
    hide ObsOk, SeenOk, GoalOk, FirstStateOk, ReadCheckpoint, Later, IsSnapshot, SameInputs, BindingMatches, Grows, Wellformed, LaterSecret,
         HasFinalizer, ClusterNameFor;
    match w
    case Start(_) =>
    case Done(_) =>
    case CheckPause(obs) => ObsStays(wd, wd', tr, tr', obs);
    case Adopt(_) =>
    case AdoptCheckPause(latest) => SnapshotsPersist(wd, wd', latest);
    case AdoptPatch(latest) => SnapshotsPersist(wd, wd', latest);
    case ReadSecret(obs) => ObsStays(wd, wd', tr, tr', obs);
    case Authenticate(obs, secret) =>
      ObsStays(wd, wd', tr, tr', obs);
      SeenStays(wd, wd', obs, Some(secret));
    case Verify(obs, secret, _) =>
      ObsStays(wd, wd', tr, tr', obs);
      SeenStays(wd, wd', obs, Some(secret));
    case CheckReferences(obs, secret, s) =>
      ObsStays(wd, wd', tr, tr', obs);
      SeenStays(wd, wd', obs, Some(secret));
      FirstStateStays(wd, wd', tr, tr', id, obs, secret, s);
    case Resume(obs, secret, s) =>
      ObsStays(wd, wd', tr, tr', obs);
      SeenStays(wd, wd', obs, Some(secret));
    case RecheckSecret(obs, seen, goal) => RecheckStays(wd, wd', tr, tr', id, obs, seen, goal);
    case RecheckCluster(obs, seen, goal) => RecheckStays(wd, wd', tr, tr', id, obs, seen, goal);
    case RecheckPause(obs, seen, goal, latest) =>
      RecheckStays(wd, wd', tr, tr', id, obs, seen, goal);
      SnapshotsPersist(wd, wd', latest);
    case RecheckReferences(obs, seen, goal) => RecheckStays(wd, wd', tr, tr', id, obs, seen, goal);
    case SendCredentialDelete(obs, seen, s, session) =>
      RecheckStays(wd, wd', tr, tr', id, obs, seen, DeleteCredential(s, session));
    case SendSecretDelete(obs, secret, s) => RecheckStays(wd, wd', tr, tr', id, obs, Some(secret), DeleteSecret(s));
    case SendPatch(obs, seen, goal, latest) =>
      RecheckStays(wd, wd', tr, tr', id, obs, seen, goal);
      SnapshotsPersist(wd, wd', latest);
  }

  lemma RecheckStays(wd: World, wd': World, tr: seq<Event>, tr': seq<Event>, id: nat, obs: Cluster, seen: Option<Secret>, goal: Goal)
    requires Wellformed(wd) && Evolves(wd, wd') && Grows(tr, tr')
    requires ObsOk(wd, tr, obs) && SeenOk(wd, obs, seen) && GoalOk(wd, tr, id, obs, seen, goal)
    ensures ObsOk(wd', tr', obs) && SeenOk(wd', obs, seen) && GoalOk(wd', tr', id, obs, seen, goal)
  {
    ObsStays(wd, wd', tr, tr', obs);
    SeenStays(wd, wd', obs, seen);
    GoalStays(wd, wd', tr, tr', id, obs, seen, goal);
  }
}
