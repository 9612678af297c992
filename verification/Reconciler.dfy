/** The controller as it is written (internal/controller/openstackcluster_controller.go and
    credential_cleanup.go): methods that call a mutable API server. Others may change the server
    before every call, and any call may fail or lose its answer. Each method is proved to do what
    the state machine of module Protocol does from the matching point on. */
module Reconciler {
  import opened Results
  import opened GoStrings
  import opened Credentials
  import opened Objects
  import opened Lifecycle
  import opened Checkpoint
  import opened Runner
  import opened Protocol
  import opened Execution
  import ApiErrors

  type Error = ApiErrors.Tree

  const PAUSED: Error := ApiErrors.Known(ApiErrors.CleanupPaused)
  const PENDING: Error := ApiErrors.Known(ApiErrors.DeletePending)
  const NOT_FOUND: Error := ApiErrors.Known(ApiErrors.NotFound)
  const OTHER: Error := ApiErrors.Text("")

  predicate IsNotFound(e: Error) {
    ApiErrors.Is(e, ApiErrors.NotFound)
  }

  /** fmt.Errorf with one %w, and redaction. */
  function Wrapped(e: Error): Error {
    ApiErrors.Wrap([e])
  }

  /** A ctrl.Result and an error. */
  datatype ReconcileResult = ReconcileResult(requeueAfter: bool, err: Option<Error>)

  /** What Reconcile makes of a result; for an error, as `ApiErrors.Decide` says. */
  function VerdictOf(r: ReconcileResult): Verdict {
    match r.err
    case None => if r.requeueAfter then Requeue else Idle
    case Some(e) => VerdictOfError(e)
  }

  function Fail(e: Error): ReconcileResult {
    ReconcileResult(false, Some(e))
  }

  function IgnoreNotFound(e: Error): ReconcileResult {
    ReconcileResult(false, if IsNotFound(e) then None else Some(e))
  }

  /** What the plain errors come to, behind any wrapper. */
  lemma ErrorVerdicts()
    ensures VerdictOfError(PAUSED) == Idle && VerdictOfError(PENDING) == Requeue && VerdictOfError(OTHER) == Retry
    ensures IsNotFound(NOT_FOUND) && !IsNotFound(PAUSED) && !IsNotFound(PENDING) && !IsNotFound(OTHER)
    ensures forall e :: VerdictOfError(Wrapped(e)) == VerdictOfError(e) && (IsNotFound(Wrapped(e)) <==> IsNotFound(e))
  {
    ApiErrors.KnownIs(ApiErrors.CleanupPaused);
    ApiErrors.KnownIs(ApiErrors.DeletePending);
    ApiErrors.KnownIs(ApiErrors.NotFound);
    ApiErrors.TextDecides("");
    hide ApiErrors.Decide, ApiErrors.Is;
    forall e
      ensures VerdictOfError(Wrapped(e)) == VerdictOfError(e) && (IsNotFound(Wrapped(e)) <==> IsNotFound(e))
    {
      ApiErrors.WrappedDecides(e);
    }
  }

  lemma ReportedIsWrapped(e: Error)
    ensures Reported(e) == Wrapped(Wrapped(Wrapped(e)))
  {
  }

  /** The API server and OpenStack, as one reconcile meets them. */
  class Api {
    var world: World
    var calls: nat
    ghost var events: seq<Event>
    const outside: Outside
    const id: nat

    constructor (world: World, outside: Outside, id: nat)
      ensures Now() == Frame(world, 0, []) && this.outside == outside && this.id == id
    {
      this.world, this.calls, this.events, this.outside, this.id := world, 0, [], outside, id;
    }

    ghost function Now(): Frame
      reads this
    {
      Frame(world, calls, events)
    }

    /** Others move, then the call is answered. */
    method Call() returns (reply: Reply)
      modifies this
      ensures Now() == Heard(outside, old(Now())) && reply == outside.replies(old(calls))
    {
      reply := outside.replies(calls);
      world, calls := outside.disturb(calls, world), calls + 1;
    }

    method GetCluster(name: string) returns (r: Result<Cluster, Error>)
      modifies this
      ensures Now() == Heard(outside, old(Now()))
      ensures r == if !outside.replies(old(calls)).Normal? then Err(OTHER)
                   else if name in world.clusters then Ok(world.clusters[name]) else Err(NOT_FOUND)
    {
      var reply := Call();
      r := if !reply.Normal? then Err(OTHER)
           else if name in world.clusters then Ok(world.clusters[name]) else Err(NOT_FOUND);
    }

    method FindSecret(name: string) returns (r: Result<Option<Secret>, Error>)
      modifies this
      ensures Now() == Heard(outside, old(Now()))
      ensures r == if outside.replies(old(calls)).Normal? then Ok(Find(world, name)) else Err(OTHER)
    {
      var reply := Call();
      r := if reply.Normal? then Ok(Find(world, name)) else Err(OTHER);
    }

    method CheckPaused(c: Cluster) returns (r: Result<bool, Error>)
      modifies this
      ensures Now() == Heard(outside, old(Now()))
      ensures r == if outside.replies(old(calls)).Normal? then Ok(Paused(world.owners, c)) else Err(OTHER)
    {
      var reply := Call();
      if !reply.Normal? {
        return Err(OTHER);
      }
      var paused := IsPaused(world.owners, {}, c);
      r := if paused.Ok? then Ok(paused.value) else Err(OTHER);
    }

    /** The objects of the namespace, in some order. */
    method ListClusters() returns (items: seq<Cluster>)
      ensures forall c :: c in items <==> exists n :: n in world.clusters && world.clusters[n] == c
    {
      items := [];
      var rest := world.clusters.Keys;
      while rest != {}
        invariant rest <= world.clusters.Keys
        invariant forall c :: c in items <==> exists n :: n in world.clusters && n !in rest && world.clusters[n] == c
        decreases |rest|
      {
        var n :| n in rest;
        items, rest := items + [world.clusters[n]], rest - {n};
      }
    }

    method HasOtherReferences(c: Cluster) returns (r: Result<bool, Error>)
      modifies this
      ensures Now() == Heard(outside, old(Now()))
      ensures r == if outside.replies(old(calls)).Normal? then Ok(OtherReferences(world, c)) else Err(OTHER)
    {
      var reply := Call();
      if !reply.Normal? {
        return Err(OTHER);
      }
      var items := ListClusters();
      var shared := HasOtherSecretReferences(items, c);
      assert shared <==> OtherReferences(world, c) by {
        if OtherReferences(world, c) {
          var n :| n in world.clusters && IsOtherReference(world.clusters[n], c);
          assert world.clusters[n] in items && IsOtherReference(world.clusters[n], c);
        }
      }
      r := Ok(shared);
    }

    method NewCleanupSession(c: Cluster, secret: Secret) returns (r: Result<Binding, Error>)
      modifies this
      ensures Now() == Heard(outside, old(Now()))
      ensures r == if !outside.replies(old(calls)).Normal? || OpenSession(world, c, secret).None? then Err(OTHER)
                   else Ok(OpenSession(world, c, secret).value)
    {
      var reply := Call();
      var session := OpenSession(world, c, secret);
      r := if !reply.Normal? || session.None? then Err(OTHER) else Ok(session.value);
    }

    /** One run of the cleanup, and what its outcome means to the caller. */
    method Cleanup(c: Cluster, ghost secret: Secret, ghost b: Binding) returns (r: Result<(), Error>)
      modifies this
      ensures world == Disturbed(outside, old(Now())) && calls == old(calls) + 1
      ensures var reply := outside.replies(old(calls));
        r == (if !reply.Ran? then Err(OTHER)
              else match RunSpec(RequestFor(world, c), reply.inv, reply.answers, 0).result
                case Err(_) => Err(OTHER)
                case Ok(Waiting) => Err(Wrapped(PENDING))
                case Ok(Complete) => Ok(()))
        && events == old(events) + (if r.Ok? then [Cleaned(id, c, secret, b, reply.inv)] else [])
    {
      var reply := Call();
      if !reply.Ran? {
        return Err(OTHER);
      }
      var cloud := new Cloud(reply.inv, reply.answers);
      var outcome := Run(cloud, RequestFor(world, c));
      match outcome {
        case Err(_) => r := Err(OTHER);
        case Ok(Waiting) => r := Err(Wrapped(PENDING));
        case Ok(Complete) =>
          r := Ok(());
          events := events + [Cleaned(id, c, secret, b, reply.inv)];
      }
    }

    /** DELETE of the application credential, for the ID of the session only. The answer is
        classified, named by the service and redacted. */
    method DeleteApplicationCredential(ghost obs: Cluster, ghost state: State, session: Binding, credentialID: string)
      returns (r: Result<(), Error>)
      requires credentialID == state.cloud.credentialID
      modifies this
      ensures var reply := outside.replies(old(calls));
        var sent := credentialID != "" && credentialID == session.credentialID && reply.Answered?;
        var e := StepCredentialDelete(Disturbed(outside, old(Now())), id, obs, None, state, session, reply);
        && Now() == Frame(e.world, old(calls) + 1, old(events) + e.events)
        && (r.Ok? <==> sent && ApiErrors.ClassifyApplicationCredentialDelete(reply.error).None?)
        && (r.Err? ==> r.error == if !sent then OTHER
              else Wrapped(Wrapped(ApiErrors.ClassifyApplicationCredentialDelete(reply.error).value)))
        && (r.Err? ==> e.worker == Done(VerdictOfError(Wrapped(r.error))))
    {
      ErrorVerdicts();
      hide Wrapped, ApiErrors.ClassifyApplicationCredentialDelete, VerdictOfError, Reported;
      var reply := Call();
      if credentialID == "" || credentialID != session.credentialID || !reply.Answered? {
        return Err(OTHER);
      }
      events := events + [CredentialDeleteSent(id, obs.uid, state, session)];
      if reply.applied {
        world := world.(credentials := world.credentials - {KeyOf(session)});
      }
      var classified := ApiErrors.ClassifyApplicationCredentialDelete(reply.error);
      if classified.Some? {
        ReportedIsWrapped(classified.value);
        return Err(Wrapped(Wrapped(classified.value)));
      }
      events := events + [CredentialDeleteConfirmed(id, obs.uid, state, session, reply.error)];
      r := Ok(());
    }

    /** DELETE of a Secret, on the condition that it still has this UID and resourceVersion. */
    method DeleteSecretObject(ghost obs: Cluster, ghost state: State, secret: Secret) returns (r: Result<(), Error>)
      modifies this
      ensures var e := StepSecretDelete(Disturbed(outside, old(Now())), id, obs, secret, state, outside.replies(old(calls)));
        && Now() == Frame(e.world, old(calls) + 1, old(events) + e.events)
        && e.worker == Done(if r.Ok? || r.error == NOT_FOUND then Requeue else Retry)
        && (r.Err? ==> r.error == NOT_FOUND || r.error == OTHER)
    {
      var reply := Call();
      if !reply.Normal? && !reply.Lost? {
        return Err(OTHER);
      }
      if secret.name !in world.secrets {
        return Err(NOT_FOUND);
      }
      var current := world.secrets[secret.name];
      if current.uid != secret.uid || current.version != secret.version {
        return Err(OTHER);
      }
      world := RemoveSecret(world, current);
      events := events + [SecretDeleted(id, obs.uid, state, current)];
      r := if reply.Lost? then Err(OTHER) else Ok(());
    }

    /** A merge patch under the optimistic lock of the object it was computed from. `change` maps
        the stored object to the patched one. */
    method Patch(name: string, base: Cluster, change: Cluster -> Cluster, ghost event: Cluster -> Event) returns (r: Result<(), Error>)
      modifies this
      ensures calls == old(calls) + 1
      ensures var wd, reply := Disturbed(outside, old(Now())), outside.replies(old(calls));
        if !reply.Normal? && !reply.Lost? then r == Err(OTHER) && world == wd && events == old(events)
        else if name !in wd.clusters then r == Err(NOT_FOUND) && world == wd && events == old(events)
        else if wd.clusters[name].version != base.version then r == Err(OTHER) && world == wd && events == old(events)
        else
          && world == PutCluster(wd, change(wd.clusters[name])) && events == old(events) + [event(wd.clusters[name])]
          && r == if reply.Lost? then Err(OTHER) else Ok(())
    {
      var reply := Call();
      if !reply.Normal? && !reply.Lost? {
        return Err(OTHER);
      }
      if name !in world.clusters {
        return Err(NOT_FOUND);
      }
      var current := world.clusters[name];
      if current.version != base.version {
        return Err(OTHER);
      }
      world := PutCluster(world, change(current));
      events := events + [event(current)];
      r := if reply.Lost? then Err(OTHER) else Ok(());
    }
  }

  // ---------- the reconciler ----------

  method CheckCleanupInputs(api: Api, observed: Cluster, secret: Option<Secret>, soleFinalizer: bool, ghost goal: Goal)
    returns (r: Result<Cluster, Error>)
    requires soleFinalizer == NeedsSoleFinalizer(goal)
    modifies api
    ensures Drive(api.outside, api.id, old(api.Now()), RecheckSecret(observed, secret, goal)) ==
      match r
      case Err(e) => (api.Now(), VerdictOf(IgnoreNotFound(e)))
      case Ok(latest) => Drive(api.outside, api.id, api.Now(), AfterChecks(observed, secret, goal, latest))
  {
    hide Drive, VerdictOfError, IsNotFound, Wrapped, SameInputs, SameSecret, Paused;
    ghost var o, id := api.outside, api.id;
    ErrorVerdicts();
    ReadStep(o, id, api.Now(), RecheckSecret(observed, secret, goal));
    var current := api.FindSecret(observed.identity.name);
    if current.Err? {
      return Err(current.error);
    }
    DoneDrives(o, id, api.Now(), Retry);
    if !SameSecret(secret, current.value) {
      return Err(OTHER);
    }
    ReadStep(o, id, api.Now(), RecheckCluster(observed, secret, goal));
    var got := api.GetCluster(observed.name);
    DoneDrives(o, id, api.Now(), Retry);
    DoneDrives(o, id, api.Now(), Idle);
    if got.Err? {
      return Err(got.error);
    }
    var latest := got.value;
    if !SameInputs(api.world.operatorDefault, observed, latest) {
      return Err(OTHER);
    }
    ReadStep(o, id, api.Now(), RecheckPause(observed, secret, goal, latest));
    var paused := api.CheckPaused(latest);
    DoneDrives(o, id, api.Now(), Idle);
    DoneDrives(o, id, api.Now(), Requeue);
    if paused.Err? {
      return Err(paused.error);
    }
    if paused.value {
      return Err(PAUSED);
    }
    if soleFinalizer && |latest.finalizers| != 1 {
      return Err(PENDING);
    }
    r := Ok(latest);
  }

  method FinishCleanup(api: Api, observed: Cluster, secret: Option<Secret>, soleFinalizer: bool) returns (r: ReconcileResult)
    modifies api
    ensures Drive(api.outside, api.id, old(api.Now()), RecheckSecret(observed, secret, Finish(soleFinalizer)))
         == (api.Now(), VerdictOf(r))
  {
    hide Drive, VerdictOfError, IsNotFound, Wrapped, PutCluster, RemoveFinalizer, StepRead, StepVerify, StepCredentialDelete,
         StepSecretDelete, StepAdopt;
    ghost var o, id := api.outside, api.id;
    ErrorVerdicts();
    var checked := CheckCleanupInputs(api, observed, secret, soleFinalizer, Finish(soleFinalizer));
    if checked.Err? {
      return IgnoreNotFound(checked.error);
    }
    var latest := checked.value;
    WriteStep(o, id, api.Now(), SendPatch(observed, secret, Finish(soleFinalizer), latest));
    ghost var before := api.Now();
    var patched := api.Patch(observed.name, latest, (c: Cluster) => c.(finalizers := RemoveFinalizer(latest.finalizers)),
                             (c: Cluster) => FinalizerRemoved(id, c));
    assert api.Now() == NextFrame(o, id, before, SendPatch(observed, secret, Finish(soleFinalizer), latest));
    DoneDrives(o, id, api.Now(), Retry);
    DoneDrives(o, id, api.Now(), Idle);
    if patched.Err? {
      return IgnoreNotFound(patched.error);
    }
    r := ReconcileResult(false, None);
  }

  method SaveCredentialCheckpoint(api: Api, observed: Cluster, secret: Option<Secret>, state: State) returns (r: ReconcileResult)
    modifies api
    ensures Drive(api.outside, api.id, old(api.Now()), RecheckSecret(observed, secret, Save(state)))
         == (api.Now(), VerdictOf(r))
  {
    hide Drive, VerdictOfError, IsNotFound, Wrapped, PutCluster, Encode, StepRead, StepVerify, StepCredentialDelete, StepSecretDelete,
         StepAdopt;
    ghost var o, id := api.outside, api.id;
    ErrorVerdicts();
    var checked := CheckCleanupInputs(api, observed, secret, true, Save(state));
    if checked.Err? {
      return IgnoreNotFound(checked.error);
    }
    var latest := checked.value;
    var data := Encode(state);
    WriteStep(o, id, api.Now(), SendPatch(observed, secret, Save(state), latest));
    ghost var before := api.Now();
    var patched := api.Patch(observed.name, latest, (c: Cluster) => c.(annotations := c.annotations[CHECKPOINT_ANNOTATION := data]),
                             (c: Cluster) => Saved(id, c.uid, state));
    assert api.Now() == NextFrame(o, id, before, SendPatch(observed, secret, Save(state), latest));
    DoneDrives(o, id, api.Now(), Retry);
    DoneDrives(o, id, api.Now(), Idle);
    DoneDrives(o, id, api.Now(), Requeue);
    if patched.Err? {
      return IgnoreNotFound(patched.error);
    }
    r := ReconcileResult(true, None);
  }

  /** The direct reference check before a DELETE: another user of the Secret postpones it. */
  method CheckUnshared(api: Api, cluster: Cluster, secret: Option<Secret>, ghost goal: Goal) returns (r: Result<(), Error>)
    requires goal.DeleteCredential? || (goal.DeleteSecret? && secret.Some?)
    modifies api
    ensures Drive(api.outside, api.id, old(api.Now()), RecheckReferences(cluster, secret, goal)) ==
      match r
      case Err(e) => (api.Now(), VerdictOf(Fail(e)))
      case Ok(_) => Drive(api.outside, api.id, api.Now(),
          if goal.DeleteCredential? then SendCredentialDelete(cluster, secret, goal.state, goal.session)
          else SendSecretDelete(cluster, secret.value, goal.state))
  {
    hide Drive, VerdictOfError, IsNotFound, Wrapped, OtherReferences;
    ghost var o, id := api.outside, api.id;
    ErrorVerdicts();
    ReadStep(o, id, api.Now(), RecheckReferences(cluster, secret, goal));
    var shared := api.HasOtherReferences(cluster);
    DoneDrives(o, id, api.Now(), Requeue);
    if shared.Err? {
      return Err(shared.error);
    }
    if shared.value {
      return Err(PENDING);
    }
    r := Ok(());
  }

  /** The first phase: delete the recorded credential, then record that it is gone. */
  method DeleteRecordedCredential(api: Api, cluster: Cluster, secret: Secret, recorded: State) returns (r: ReconcileResult)
    modifies api
    ensures Drive(api.outside, api.id, old(api.Now()), Resume(cluster, secret, recorded)) == (api.Now(), VerdictOf(r))
  {
    hide Drive, VerdictOfError, IsNotFound, Wrapped, OpenSession, StepVerify, StepSecretDelete, StepPatch, StepAdopt,
         ApiErrors.ClassifyApplicationCredentialDelete, Reported;
    ghost var o, id := api.outside, api.id;
    ErrorVerdicts();
    var state := recorded;
    ReadStep(o, id, api.Now(), Resume(cluster, secret, recorded));
    var authenticated := api.NewCleanupSession(cluster, secret);
    DoneDrives(o, id, api.Now(), Retry);
    if authenticated.Err? {
      return Fail(authenticated.error);
    }
    var session := authenticated.value;
    if session != state.cloud {
      return Fail(OTHER);
    }
    var checked := CheckCleanupInputs(api, cluster, Some(secret), true, DeleteCredential(recorded, session));
    if checked.Err? {
      return IgnoreNotFound(checked.error);
    }
    var unshared := CheckUnshared(api, cluster, Some(secret), DeleteCredential(recorded, session));
    if unshared.Err? {
      return Fail(unshared.error);
    }
    WriteStep(o, id, api.Now(), SendCredentialDelete(cluster, Some(secret), recorded, session));
    var deleted := api.DeleteApplicationCredential(cluster, recorded, session, state.cloud.credentialID);
    DoneDrives(o, id, api.Now(), Retry);
    if deleted.Err? {
      DoneDrives(o, id, api.Now(), VerdictOfError(Wrapped(deleted.error)));
      return Fail(Wrapped(deleted.error));
    }
    state := state.(phase := CONFIRMED);
    r := SaveCredentialCheckpoint(api, cluster, Some(secret), state);
  }

  /** The second phase: delete the recorded Secret; its absence is seen in a later reconcile. */
  method DeleteRecordedSecret(api: Api, cluster: Cluster, secret: Secret, state: State) returns (r: ReconcileResult)
    modifies api
    ensures Drive(api.outside, api.id, old(api.Now()), RecheckSecret(cluster, Some(secret), DeleteSecret(state)))
         == (api.Now(), VerdictOf(r))
  {
    hide Drive, VerdictOfError, IsNotFound, Wrapped, StepSecretDelete, StepRead, StepVerify, StepCredentialDelete, StepPatch, StepAdopt;
    ghost var o, id := api.outside, api.id;
    ErrorVerdicts();
    var checked := CheckCleanupInputs(api, cluster, Some(secret), true, DeleteSecret(state));
    if checked.Err? {
      return IgnoreNotFound(checked.error);
    }
    var unshared := CheckUnshared(api, cluster, Some(secret), DeleteSecret(state));
    if unshared.Err? {
      return Fail(unshared.error);
    }
    WriteStep(o, id, api.Now(), SendSecretDelete(cluster, secret, state));
    var deleted := api.DeleteSecretObject(cluster, state, secret);
    DoneDrives(o, id, api.Now(), Retry);
    DoneDrives(o, id, api.Now(), Requeue);
    if deleted.Err? && !IsNotFound(deleted.error) {
      return Fail(deleted.error);
    }
    r := ReconcileResult(true, None);
  }

  method ResumeCredentialCleanup(api: Api, cluster: Cluster, secret: Option<Secret>, state: State) returns (r: ReconcileResult)
    requires state.phase == STARTED || state.phase == CONFIRMED
    modifies api
    ensures Drive(api.outside, api.id, old(api.Now()), BeginResume(old(api.world.operatorDefault), cluster, secret, state))
         == (api.Now(), VerdictOf(r))
  {
    hide Drive, VerdictOfError, IsNotFound, Wrapped, SecretMatches, SelectedCloud;
    ghost var o, id := api.outside, api.id;
    ErrorVerdicts();
    DoneDrives(o, id, api.Now(), Retry);
    DoneDrives(o, id, api.Now(), Requeue);
    if !BindingMatches(api.world.operatorDefault, cluster, secret, state) {
      return Fail(OTHER);
    }
    if |cluster.finalizers| != 1 {
      return Fail(PENDING);
    }
    if state.phase == STARTED {
      r := DeleteRecordedCredential(api, cluster, secret.value, state);
      return;
    }
    if secret.None? {
      r := FinishCleanup(api, cluster, None, true);
      return;
    }
    if secret.value.deleting {
      return Fail(PENDING);
    }
    r := DeleteRecordedSecret(api, cluster, secret.value, state);
  }

  /** Nothing is recorded yet: clean up, then finish or record the first phase. */
  method VerifyAndRecord(api: Api, cluster: Cluster, secret: Secret) returns (r: ReconcileResult)
    modifies api
    ensures Drive(api.outside, api.id, old(api.Now()), Authenticate(cluster, secret)) == (api.Now(), VerdictOf(r))
  {
    hide Drive, VerdictOfError, IsNotFound, Wrapped, OpenSession, RunSpec, FirstState, ValidateBinding, BindingMatches, OtherReferences;
    ghost var o, id := api.outside, api.id;
    ErrorVerdicts();
    ReadStep(o, id, api.Now(), Authenticate(cluster, secret));
    var authenticated := api.NewCleanupSession(cluster, secret);
    DoneDrives(o, id, api.Now(), Retry);
    if authenticated.Err? {
      return Fail(authenticated.error);
    }
    var binding := authenticated.value;
    WriteStep(o, id, api.Now(), Verify(cluster, secret, binding));
    ghost var before := api.Now();
    var cleaned := api.Cleanup(cluster, secret, binding);
    assert api.Now() == NextFrame(o, id, before, Verify(cluster, secret, binding));
    DoneDrives(o, id, api.Now(), Retry);
    DoneDrives(o, id, api.Now(), Requeue);
    if cleaned.Err? {
      return Fail(Wrapped(cleaned.error));
    }
    if !RequestsCredentialDeletion(secret) {
      r := FinishCleanup(api, cluster, Some(secret), false);
      return;
    }
    var state := FirstState(api.world, cluster, secret, binding);
    if state.clusterUID == "" || state.secretUID == "" || ValidateBinding(binding).Err? {
      return Fail(OTHER);
    }
    if !BindingMatches(api.world.operatorDefault, cluster, Some(secret), state) {
      return Fail(OTHER);
    }
    ReadStep(o, id, api.Now(), CheckReferences(cluster, secret, state));
    var shared := api.HasOtherReferences(cluster);
    DoneDrives(o, id, api.Now(), Retry);
    if shared.Err? {
      return Fail(shared.error);
    }
    if shared.value {
      r := FinishCleanup(api, cluster, Some(secret), true);
      return;
    }
    r := SaveCredentialCheckpoint(api, cluster, Some(secret), state);
  }

  method ReconcileDelete(api: Api, cluster: Cluster) returns (r: ReconcileResult)
    modifies api
    ensures Drive(api.outside, api.id, old(api.Now()), BeginDelete(cluster)) == (api.Now(), VerdictOf(r))
  {
    hide Drive, VerdictOfError, IsNotFound, Wrapped, BeginResume, IsValid, Decode;
    ghost var o, id := api.outside, api.id;
    ErrorVerdicts();
    DoneDrives(o, id, api.Now(), Retry);
    if TrimSpace(ClusterNameFor(cluster)) == "" {
      return Fail(OTHER);
    }
    if !cluster.identity.IsDirectSecret() {
      return Fail(OTHER);
    }
    if cluster.identity.name == "" {
      return Fail(OTHER);
    }
    var reading := ReadCheckpoint(cluster);
    if reading.Bad? {
      return Fail(OTHER);
    }
    ReadStep(o, id, api.Now(), ReadSecret(cluster));
    var found := api.FindSecret(cluster.identity.name);
    DoneDrives(o, id, api.Now(), Retry);
    if found.Err? {
      return Fail(found.error);
    }
    if reading.Good? {
      GoodHasPhase(cluster);
      r := ResumeCredentialCleanup(api, cluster, found.value, reading.state);
      return;
    }
    if found.value.None? {
      return Fail(OTHER);
    }
    r := VerifyAndRecord(api, cluster, found.value.value);
  }

  method AddFinalizer(api: Api, observed: Cluster) returns (r: Result<bool, Error>)
    modifies api
    ensures Drive(api.outside, api.id, old(api.Now()), Adopt(observed))
         == (api.Now(), VerdictOf(if r.Err? then Fail(r.error) else ReconcileResult(false, None)))
  {
    hide Drive, VerdictOfError, IsNotFound, Wrapped, Paused, PutCluster, HasFinalizer, StepVerify, StepCredentialDelete, StepSecretDelete,
         StepPatch, RunSpec;
    ghost var o, id := api.outside, api.id;
    ErrorVerdicts();
    ReadStep(o, id, api.Now(), Adopt(observed));
    var got := api.GetCluster(observed.name);
    DoneDrives(o, id, api.Now(), Retry);
    DoneDrives(o, id, api.Now(), Idle);
    if got.Err? {
      return if IsNotFound(got.error) then Ok(false) else Err(got.error);
    }
    var latest := got.value;
    if latest.uid != observed.uid {
      return Err(OTHER);
    }
    if latest.deleting || HasFinalizer(latest) {
      return Ok(false);
    }
    ReadStep(o, id, api.Now(), AdoptCheckPause(latest));
    var paused := api.CheckPaused(latest);
    DoneDrives(o, id, api.Now(), Retry);
    DoneDrives(o, id, api.Now(), Idle);
    if paused.Err? || paused.value {
      return if paused.Err? then Err(paused.error) else Ok(false);
    }
    WriteStep(o, id, api.Now(), AdoptPatch(latest));
    ghost var before := api.Now();
    var patched := api.Patch(latest.name, latest, (c: Cluster) => c.(finalizers := latest.finalizers + [FINALIZER]),
                             (c: Cluster) => FinalizerAdded(id, c));
    assert api.Now() == NextFrame(o, id, before, AdoptPatch(latest));
    DoneDrives(o, id, api.Now(), Retry);
    DoneDrives(o, id, api.Now(), Idle);
    if patched.Err? {
      return if IsNotFound(patched.error) then Ok(false) else Err(patched.error);
    }
    r := Ok(true);
  }

  /** The whole reconcile does what the state machine does from its first call to its last. */
  method Reconcile(api: Api, name: string) returns (r: ReconcileResult)
    modifies api
    ensures Drive(api.outside, api.id, old(api.Now()), Start(name)) == (api.Now(), VerdictOf(r))
  {
    hide Drive, VerdictOfError, IsNotFound, Wrapped, Paused, BeginDelete;
    ghost var o, id := api.outside, api.id;
    ErrorVerdicts();
    ReadStep(o, id, api.Now(), Start(name));
    var got := api.GetCluster(name);
    DoneDrives(o, id, api.Now(), Retry);
    DoneDrives(o, id, api.Now(), Idle);
    if got.Err? {
      return IgnoreNotFound(got.error);
    }
    var cluster := got.value;
    ReadStep(o, id, api.Now(), CheckPause(cluster));
    var paused := api.CheckPaused(cluster);
    DoneDrives(o, id, api.Now(), Retry);
    DoneDrives(o, id, api.Now(), Idle);
    if paused.Err? {
      return Fail(paused.error);
    }
    if paused.value {
      return ReconcileResult(false, None);
    }
    if !cluster.deleting {
      if !HasFinalizer(cluster) {
        var added := AddFinalizer(api, cluster);
        if added.Err? {
          return Fail(added.error);
        }
      }
      return ReconcileResult(false, None);
    }
    if !HasFinalizer(cluster) {
      return ReconcileResult(false, None);
    }
    r := ReconcileDelete(api, cluster);
  }
}
