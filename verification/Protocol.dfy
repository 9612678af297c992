/** The deletion protocol as a state machine: any number of reconciles (workers), one API call
    per step, interleaved with an environment that may edit everything but the checkpoint
    (internal/controller/credential_cleanup.go, openstackcluster_controller.go). */
module Protocol {
  import opened Results
  import opened GoStrings
  import opened Credentials
  import opened Objects
  import opened Lifecycle
  import opened Checkpoint
  import opened Runner
  import opened RunnerSafety
  import ApiErrors

  /** An application credential is known by its authority and ID. */
  type CredentialKey = (string, string)

  /** One namespace and the OpenStack credentials. `clock` is the last resourceVersion handed out;
      `clusterUIDs` and `secretNames` record every UID ever used. */
  datatype World = World(
    clusters: map<string, Cluster>,
    secrets: map<string, Secret>,
    owners: map<string, Owner>,
    credentials: map<CredentialKey, Token>,
    operatorDefault: string,
    clock: nat,
    clusterUIDs: set<string>,
    secretNames: map<string, string>)

  /** Why the inputs are being checked again. */
  datatype Goal =
    | Finish(sole: bool)
    | Save(state: State)
    | DeleteCredential(state: State, session: Binding)
    | DeleteSecret(state: State)

  /** What Reconcile finally tells the work queue. */
  datatype Verdict = Idle | Requeue | Retry

  /** A reconcile in flight, named after its next API call. */
  datatype Worker =
    | Start(name: string)
    | CheckPause(obs: Cluster)
    | Adopt(obs: Cluster)
    | AdoptCheckPause(latest: Cluster)
    | AdoptPatch(latest: Cluster)
    | ReadSecret(obs: Cluster)
    | Authenticate(obs: Cluster, secret: Secret)
    | Verify(obs: Cluster, secret: Secret, binding: Binding)
    | CheckReferences(obs: Cluster, secret: Secret, state: State)
    | Resume(obs: Cluster, secret: Secret, state: State)
    | RecheckSecret(obs: Cluster, seen: Option<Secret>, goal: Goal)
    | RecheckCluster(obs: Cluster, seen: Option<Secret>, goal: Goal)
    | RecheckPause(obs: Cluster, seen: Option<Secret>, goal: Goal, latest: Cluster)
    | RecheckReferences(obs: Cluster, seen: Option<Secret>, goal: Goal)
    | SendCredentialDelete(obs: Cluster, seen: Option<Secret>, state: State, session: Binding)
    | SendSecretDelete(obs: Cluster, secret: Secret, state: State)
    | SendPatch(obs: Cluster, seen: Option<Secret>, goal: Goal, latest: Cluster)
    | Done(verdict: Verdict)

  /** How the outside answers one call. `Lost` commits a write but reports an error; `Ran` is
      OpenStack during one cleanup: what it holds, and its answers call by call. `Answered` is a
      credential DELETE that was sent: the error it returned, if any, and whether it took effect. */
  datatype Reply =
    | Normal
    | Failed
    | Lost
    | Ran(inv: Inventory, answers: nat -> Answer)
    | Answered(error: Option<ApiErrors.Tree>, applied: bool)

  datatype Event =
    | Cleaned(id: nat, obs: Cluster, secret: Secret, binding: Binding, inv: Inventory)
    | Saved(id: nat, uid: string, state: State)
    | CredentialDeleteSent(id: nat, uid: string, state: State, session: Binding)
    | CredentialDeleteConfirmed(id: nat, uid: string, state: State, session: Binding, answer: Option<ApiErrors.Tree>)
    | SecretDeleted(id: nat, uid: string, state: State, secret: Secret)
    | FinalizerRemoved(id: nat, cluster: Cluster)
    | FinalizerAdded(id: nat, cluster: Cluster)

  datatype Transition = Transition(world: World, worker: Worker, events: seq<Event>)

  // ---------- pure parts of the controller ----------

  function RequestFor(wd: World, c: Cluster): Request {
    Request(ClusterNameFor(c), VolumesPolicyFor(wd.operatorDefault, c) == POLICY_DELETE)
  }

  /** checkCheckpointBinding: the cluster, the Secret and its cloud entry are the recorded ones. */
  predicate BindingMatches(operatorDefault: string, c: Cluster, seen: Option<Secret>, s: State) {
    && c.uid == s.clusterUID && ClusterNameFor(c) == s.clusterName && c.identity.name == s.secretName
    && SelectedCloud(c) == s.cloud.cloudName && VolumesPolicyFor(operatorDefault, c) == s.volumesPolicy
    && if seen.None? then s.phase == CONFIRMED else SecretMatches(c, seen.value, s)
  }

  predicate SecretMatches(c: Cluster, secret: Secret, s: State) {
    && secret.uid == s.secretUID
    && Get(secret.annotations, CREDENTIAL_POLICY_ANNOTATION) == Some(s.credentialPolicy)
    && match DescribeCredential(secret.clouds, SelectedCloud(c))
       case Err(_) => false
       case Ok(config) => ConfigMatches(config, s.cloud)
  }

  predicate ConfigMatches(config: Config, b: Binding) {
    && config.authority == b.authority && config.region == b.region && config.endpoint == b.endpoint
    && config.cloudName == b.cloudName && config.credentialID == b.credentialID
    && (config.projectID != "" ==> config.projectID == b.projectID)
    && (config.userID != "" ==> config.userID == b.userID)
  }

  function FirstState(wd: World, c: Cluster, secret: Secret, b: Binding): State {
    State(1, STARTED, c.uid, ClusterNameFor(c), secret.name, secret.uid, b,
          VolumesPolicyFor(wd.operatorDefault, c), POLICY_DELETE)
  }

  function KeyOf(b: Binding): CredentialKey {
    (b.authority, b.credentialID)
  }

  /** A session exists only while its credential does, and is bound by the token it gets. */
  function OpenSession(wd: World, c: Cluster, secret: Secret): Option<Binding> {
    match DescribeCredential(secret.clouds, SelectedCloud(c))
    case Err(_) => None
    case Ok(config) =>
      var key := (config.authority, config.credentialID);
      if key !in wd.credentials then None
      else
        var token := wd.credentials[key];
        if token.userID == "" || token.projectID == "" then None else Some(SessionBinding(config, token))
  }

  predicate OtherReferences(wd: World, c: Cluster) {
    exists n :: n in wd.clusters && IsOtherReference(wd.clusters[n], c)
  }

  function Find(wd: World, name: string): Option<Secret> {
    if name in wd.secrets then Some(wd.secrets[name]) else None
  }

  predicate SameSecret(seen: Option<Secret>, current: Option<Secret>) {
    match (seen, current)
    case (None, None) => true
    case (Some(a), Some(b)) => a.uid == b.uid && a.version == b.version
    case _ => false
  }

  /** The comparison in checkCleanupInputs. */
  predicate SameInputs(operatorDefault: string, obs: Cluster, latest: Cluster) {
    && latest.uid == obs.uid && latest.generation == obs.generation
    && ClusterNameFor(latest) == ClusterNameFor(obs)
    && VolumesPolicyFor(operatorDefault, latest) == VolumesPolicyFor(operatorDefault, obs)
    && CheckpointText(latest) == CheckpointText(obs)
    && latest.deleting && HasFinalizer(latest)
  }

  predicate NeedsSoleFinalizer(goal: Goal) {
    goal.Finish? ==> goal.sole
  }

  // ---------- continuations: what runs between two API calls ----------

  function BeginDelete(obs: Cluster): Worker {
    if TrimSpace(ClusterNameFor(obs)) == "" || !obs.identity.IsDirectSecret() || obs.identity.name == ""
       || ReadCheckpoint(obs).Bad?
    then Done(Retry)
    else ReadSecret(obs)
  }

  function AfterPause(obs: Cluster): Worker {
    if !obs.deleting then (if HasFinalizer(obs) then Done(Idle) else Adopt(obs))
    else if !HasFinalizer(obs) then Done(Idle)
    else BeginDelete(obs)
  }

  function BeginResume(operatorDefault: string, obs: Cluster, seen: Option<Secret>, s: State): Worker {
    if !BindingMatches(operatorDefault, obs, seen, s) then Done(Retry)
    else if |obs.finalizers| != 1 then Done(Requeue)
    else if s.phase == STARTED && seen.Some? then Resume(obs, seen.value, s)
    else if seen.None? then RecheckSecret(obs, None, Finish(true))
    else if seen.value.deleting then Done(Requeue)
    else RecheckSecret(obs, seen, DeleteSecret(s))
  }

  function AfterCleanup(wd: World, obs: Cluster, secret: Secret, b: Binding): Worker {
    if !RequestsCredentialDeletion(secret) then RecheckSecret(obs, Some(secret), Finish(false))
    else
      var s := FirstState(wd, obs, secret, b);
      if s.clusterUID == "" || s.secretUID == "" || ValidateBinding(b).Err?
         || !BindingMatches(wd.operatorDefault, obs, Some(secret), s)
      then Done(Retry)
      else CheckReferences(obs, secret, s)
  }

  function AfterInputs(obs: Cluster, seen: Option<Secret>, goal: Goal, latest: Cluster): Worker {
    if NeedsSoleFinalizer(goal) && |latest.finalizers| != 1 then Done(Requeue)
    else if goal.Finish? || goal.Save? then SendPatch(obs, seen, goal, latest)
    else RecheckReferences(obs, seen, goal)
  }

  // ---------- commits ----------

  /** Every write gets a fresh resourceVersion; a deleting object without finalizers goes away. */
  function PutCluster(wd: World, c: Cluster): World {
    var stored := c.(version := wd.clock + 1);
    wd.(clock := wd.clock + 1,
        clusters := if c.deleting && c.finalizers == [] then wd.clusters - {c.name} else wd.clusters[c.name := stored])
  }

  function RemoveSecret(wd: World, secret: Secret): World {
    if secret.finalizers == [] then wd.(secrets := wd.secrets - {secret.name})
    else wd.(clock := wd.clock + 1,
             secrets := wd.secrets[secret.name := secret.(deleting := true, version := wd.clock + 1)])
  }

  function Patched(current: Cluster, goal: Goal, latest: Cluster): Cluster {
    if goal.Save?
    then current.(annotations := current.annotations[CHECKPOINT_ANNOTATION := Encode(goal.state)])
    else current.(finalizers := RemoveFinalizer(latest.finalizers))
  }

  function PatchEvent(id: nat, current: Cluster, goal: Goal): Event {
    if goal.Save? then Saved(id, current.uid, goal.state) else FinalizerRemoved(id, current)
  }

  function Only(wd: World, w: Worker): Transition {
    Transition(wd, w, [])
  }

  // ---------- one API call ----------

  /** The next call only reads. */
  predicate IsRead(w: Worker) {
    || w.Start? || w.CheckPause? || w.Adopt? || w.AdoptCheckPause? || w.ReadSecret? || w.Authenticate?
    || w.CheckReferences? || w.Resume? || w.RecheckSecret? || w.RecheckCluster? || w.RecheckPause?
    || w.RecheckReferences?
  }

  function StepRead(wd: World, w: Worker): Worker
    requires IsRead(w)
  {
    match w
    case Start(name) => if name in wd.clusters then CheckPause(wd.clusters[name]) else Done(Idle)
    case CheckPause(obs) => if Paused(wd.owners, obs) then Done(Idle) else AfterPause(obs)
    case Adopt(obs) =>
      if obs.name !in wd.clusters then Done(Idle)
      else
        var latest := wd.clusters[obs.name];
        if latest.uid != obs.uid then Done(Retry)
        else if latest.deleting || HasFinalizer(latest) then Done(Idle)
        else AdoptCheckPause(latest)
    case AdoptCheckPause(latest) => if Paused(wd.owners, latest) then Done(Idle) else AdoptPatch(latest)
    case ReadSecret(obs) =>
      var seen := Find(wd, obs.identity.name);
      (match ReadCheckpoint(obs)
       case Good(s) => BeginResume(wd.operatorDefault, obs, seen, s)
       case _ => if seen.None? then Done(Retry) else Authenticate(obs, seen.value))
    case Authenticate(obs, secret) =>
      var session := OpenSession(wd, obs, secret);
      if session.None? then Done(Retry) else Verify(obs, secret, session.value)
    case CheckReferences(obs, secret, s) =>
      RecheckSecret(obs, Some(secret), if OtherReferences(wd, obs) then Finish(true) else Save(s))
    case Resume(obs, secret, s) =>
      var session := OpenSession(wd, obs, secret);
      if session.None? || session.value != s.cloud then Done(Retry)
      else RecheckSecret(obs, Some(secret), DeleteCredential(s, session.value))
    case RecheckSecret(obs, seen, goal) =>
      if SameSecret(seen, Find(wd, obs.identity.name)) then RecheckCluster(obs, seen, goal) else Done(Retry)
    case RecheckCluster(obs, seen, goal) =>
      if obs.name !in wd.clusters then Done(Idle)
      else if SameInputs(wd.operatorDefault, obs, wd.clusters[obs.name]) then RecheckPause(obs, seen, goal, wd.clusters[obs.name])
      else Done(Retry)
    case RecheckPause(obs, seen, goal, latest) =>
      if Paused(wd.owners, latest) then Done(Idle) else AfterInputs(obs, seen, goal, latest)
    case RecheckReferences(obs, seen, goal) =>
      if OtherReferences(wd, obs) then Done(Requeue)
      else if goal.DeleteCredential? then SendCredentialDelete(obs, seen, goal.state, goal.session)
      else if goal.DeleteSecret? && seen.Some? then SendSecretDelete(obs, seen.value, goal.state)
      else Done(Retry)
  }

  /** One run of the cleanup; only a complete one lets the reconcile go on. */
  function StepVerify(wd: World, id: nat, obs: Cluster, secret: Secret, b: Binding, reply: Reply): Transition {
    if !reply.Ran? then Only(wd, Done(Retry))
    else
      match RunSpec(RequestFor(wd, obs), reply.inv, reply.answers, 0).result
      case Err(_) => Only(wd, Done(Retry))
      case Ok(Waiting) => Only(wd, Done(Requeue))
      case Ok(Complete) => Transition(wd, AfterCleanup(wd, obs, secret, b), [Cleaned(id, obs, secret, b, reply.inv)])
  }

  /** What Reconcile makes of an error: a pause ends the reconcile, a pending deletion is looked at
      again later, and any other error is retried. */
  function VerdictOfError(e: ApiErrors.Tree): Verdict {
    match ApiErrors.Decide(Some(e))
    case Stop => Idle
    case LookAgain => Requeue
    case _ => Retry
  }

  /** An error on its way up from a credential DELETE: named by the service, redacted by the
      session, named again by the controller. */
  function Reported(e: ApiErrors.Tree): ApiErrors.Tree {
    ApiErrors.Wrap([ApiErrors.Wrap([ApiErrors.Wrap([e])])])
  }

  /** The DELETE goes out only for the ID the session authenticated with, and counts as confirmed
      only if its answer is classified so. */
  function StepCredentialDelete(wd: World, id: nat, obs: Cluster, seen: Option<Secret>, s: State, session: Binding,
                                reply: Reply): Transition {
    var sent := CredentialDeleteSent(id, obs.uid, s, session);
    if s.cloud.credentialID == "" || s.cloud.credentialID != session.credentialID || !reply.Answered? then Only(wd, Done(Retry))
    else
      var after := if reply.applied then wd.(credentials := wd.credentials - {KeyOf(session)}) else wd;
      match ApiErrors.ClassifyApplicationCredentialDelete(reply.error)
      case None =>
        Transition(after, RecheckSecret(obs, seen, Save(s.(phase := CONFIRMED))),
                   [sent, CredentialDeleteConfirmed(id, obs.uid, s, session, reply.error)])
      case Some(e) => Transition(after, Done(VerdictOfError(Reported(e))), [sent])
  }

  function StepSecretDelete(wd: World, id: nat, obs: Cluster, secret: Secret, s: State, reply: Reply): Transition {
    if !reply.Normal? && !reply.Lost? then Only(wd, Done(Retry))
    else if secret.name !in wd.secrets then Only(wd, Done(Requeue))
    else
      var current := wd.secrets[secret.name];
      if current.uid != secret.uid || current.version != secret.version then Only(wd, Done(Retry))
      else Transition(RemoveSecret(wd, current), Done(if reply.Lost? then Retry else Requeue),
                  [SecretDeleted(id, obs.uid, s, current)])
  }

  function StepPatch(wd: World, id: nat, obs: Cluster, goal: Goal, latest: Cluster, reply: Reply): Transition {
    if !reply.Normal? && !reply.Lost? then Only(wd, Done(Retry))
    else if obs.name !in wd.clusters then Only(wd, Done(Idle))
    else
      var current := wd.clusters[obs.name];
      if current.version != latest.version then Only(wd, Done(Retry))
      else Transition(PutCluster(wd, Patched(current, goal, latest)),
                  Done(if reply.Lost? then Retry else if goal.Save? then Requeue else Idle),
                  [PatchEvent(id, current, goal)])
  }

  function StepAdopt(wd: World, id: nat, latest: Cluster, reply: Reply): Transition {
    if !reply.Normal? && !reply.Lost? then Only(wd, Done(Retry))
    else if latest.name !in wd.clusters then Only(wd, Done(Idle))
    else
      var current := wd.clusters[latest.name];
      if current.version != latest.version then Only(wd, Done(Retry))
      else Transition(PutCluster(wd, current.(finalizers := latest.finalizers + [FINALIZER])),
                  Done(if reply.Lost? then Retry else Idle), [FinalizerAdded(id, current)])
  }

  function Step(wd: World, id: nat, w: Worker, reply: Reply): Transition
    requires !w.Done?
  {
    if IsRead(w) then Only(wd, if reply.Normal? then StepRead(wd, w) else Done(Retry))
    else
      match w
      case Verify(obs, secret, b) => StepVerify(wd, id, obs, secret, b, reply)
      case SendCredentialDelete(obs, seen, s, session) => StepCredentialDelete(wd, id, obs, seen, s, session, reply)
      case SendSecretDelete(obs, secret, s) => StepSecretDelete(wd, id, obs, secret, s, reply)
      case SendPatch(obs, _, goal, latest) => StepPatch(wd, id, obs, goal, latest, reply)
      case AdoptPatch(latest) => StepAdopt(wd, id, latest, reply)
  }

  // ---------- the environment ----------

  /** Somebody else's write to a cluster: everything may change but its identity and checkpoint.
      A write takes a new resourceVersion, a spec write a new generation, and a set
      deletionTimestamp stays. */
  ghost predicate EnvironmentEdit(wd: World, c: Cluster, c': Cluster) {
    || c' == c
    || (&& c'.name == c.name && c'.uid == c.uid && c'.version > wd.clock
        && c'.generation >= c.generation && (c'.generation == c.generation ==> c'.identity == c.identity)
        && (c.deleting ==> c'.deleting)
        && CheckpointText(c') == CheckpointText(c))
  }

  ghost predicate FreshCluster(wd: World, n: string, c: Cluster) {
    c.name == n && c.uid !in wd.clusterUIDs && c.version > wd.clock && CheckpointText(c).None?
  }

  ghost predicate EnvironmentSecret(wd: World, n: string, s: Secret) {
    || (n in wd.secrets && s == wd.secrets[n])
    || (s.name == n && s.version > wd.clock
        && if n in wd.secrets && s.uid == wd.secrets[n].uid then true else s.uid !in wd.secretNames)
  }

  /** Any number of edits, creations and removals by others; owners and credentials are theirs. */
  ghost predicate EnvironmentStep(wd: World, wd': World) {
    && wd'.operatorDefault == wd.operatorDefault && wd.clock <= wd'.clock
    && wd.clusterUIDs <= wd'.clusterUIDs
    && (forall u :: u in wd.secretNames ==> u in wd'.secretNames && wd'.secretNames[u] == wd.secretNames[u])
    && (forall n :: n in wd'.clusters ==>
          && wd'.clusters[n].version <= wd'.clock && wd'.clusters[n].uid in wd'.clusterUIDs
          && (FreshCluster(wd, n, wd'.clusters[n])
              || (n in wd.clusters && EnvironmentEdit(wd, wd.clusters[n], wd'.clusters[n]))))
    && (forall n :: n in wd'.secrets ==>
          && wd'.secrets[n].version <= wd'.clock
          && wd'.secrets[n].uid in wd'.secretNames && wd'.secretNames[wd'.secrets[n].uid] == n
          && EnvironmentSecret(wd, n, wd'.secrets[n]))
    && UniqueClusters(wd') && UniqueSecrets(wd')
  }

  /** No two stored objects share a UID. */
  ghost predicate UniqueClusters(wd: World) {
    forall m, n :: m in wd.clusters && n in wd.clusters && wd.clusters[m].uid == wd.clusters[n].uid ==> m == n
  }

  ghost predicate UniqueSecrets(wd: World) {
    forall m, n :: m in wd.secrets && n in wd.secrets && wd.secrets[m].uid == wd.secrets[n].uid ==> m == n
  }

  // ---------- the system ----------

  /** `trace` lists the controller's commits and its complete cleanups; `nextID` is the next
      worker's identity, never used twice. */
  datatype System = System(world: World, workers: map<nat, Worker>, nextID: nat, trace: seq<Event>)

  ghost predicate InitialWorld(wd: World) {
    && UniqueClusters(wd) && UniqueSecrets(wd)
    && (forall n :: n in wd.clusters ==>
          && wd.clusters[n].name == n && wd.clusters[n].version <= wd.clock
          && wd.clusters[n].uid in wd.clusterUIDs && CheckpointText(wd.clusters[n]).None?)
    && (forall n :: n in wd.secrets ==>
          && wd.secrets[n].name == n && wd.secrets[n].version <= wd.clock
          && wd.secrets[n].uid in wd.secretNames && wd.secretNames[wd.secrets[n].uid] == n)
  }

  ghost predicate Initial(s: System) {
    InitialWorld(s.world) && s.workers == map[] && s.trace == []
  }

  ghost predicate EnvironmentMoves(s: System, s': System) {
    EnvironmentStep(s.world, s'.world) && s' == s.(world := s'.world)
  }

  /** The work queue starts a reconcile; overlapping ones for one name are allowed. */
  ghost predicate Starts(s: System, s': System, name: string) {
    s' == s.(workers := s.workers[s.nextID := Start(name)], nextID := s.nextID + 1)
  }

  ghost predicate Crashes(s: System, s': System, id: nat) {
    id in s.workers && s' == s.(workers := s.workers - {id})
  }

  ghost predicate Works(s: System, s': System, id: nat, reply: Reply) {
    && id in s.workers && !s.workers[id].Done?
    && var e := Step(s.world, id, s.workers[id], reply);
       s' == s.(world := e.world, workers := s.workers[id := e.worker], trace := s.trace + e.events)
  }

  ghost predicate Next(s: System, s': System) {
    || EnvironmentMoves(s, s')
    || (exists name :: Starts(s, s', name))
    || (exists id :: Crashes(s, s', id))
    || (exists id, reply :: Works(s, s', id, reply))
  }

  /** A finite run from an initial system. */
  ghost predicate IsRun(run: seq<System>) {
    && run != [] && Initial(run[0])
    && forall i :: 0 <= i < |run| - 1 ==> Next(run[i], run[i + 1])
  }
}
