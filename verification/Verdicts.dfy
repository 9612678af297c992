/** What a reconcile may leave for later and what it may give up: it ends idle only when there is
    nothing for it to do. */
module Verdicts {
  import opened Results
  import opened GoStrings
  import opened Credentials
  import opened Objects
  import opened Lifecycle
  import opened Checkpoint
  import opened Runner
  import opened RunnerSafety
  import opened Protocol
  import opened Execution
  import opened Progress
  import ApiErrors

  /** The object is not there any more. */
  predicate ObjectIsGone(wd: World, w: Worker) {
    match w
    case Start(name) => name !in wd.clusters
    case Adopt(obs) => obs.name !in wd.clusters
    case RecheckCluster(obs, _, _) => obs.name !in wd.clusters
    case SendPatch(obs, _, _, _) => obs.name !in wd.clusters
    case AdoptPatch(latest) => latest.name !in wd.clusters
    case _ => false
  }

  /** A pause check found the object paused. */
  predicate IsFoundPaused(wd: World, w: Worker) {
    match w
    case CheckPause(obs) => Paused(wd.owners, obs)
    case AdoptCheckPause(latest) => Paused(wd.owners, latest)
    case RecheckPause(_, _, _, latest) => Paused(wd.owners, latest)
    case _ => false
  }

  /** A live object has the finalizer, a deleting one has it no more, or nobody is to adopt it. */
  predicate NothingToDo(wd: World, w: Worker) {
    match w
    case CheckPause(obs) => obs.deleting != (FINALIZER in obs.finalizers)
    case Adopt(obs) =>
      obs.name in wd.clusters && (wd.clusters[obs.name].deleting || FINALIZER in wd.clusters[obs.name].finalizers)
    case _ => false
  }

  /** This step put the finalizer on or took it off, and knows it. */
  predicate SettledFinalizer(t: Transition) {
    |t.events| == 1 && (t.events[0].FinalizerAdded? || t.events[0].FinalizerRemoved?)
  }

  /** An error that carries the pause sentinel. */
  predicate AnswersPaused(w: Worker, reply: Reply) {
    w.SendCredentialDelete? && reply.Answered?
    && var e := ApiErrors.ClassifyApplicationCredentialDelete(reply.error); e.Some? && ApiErrors.Is(e.value, ApiErrors.CleanupPaused)
  }

  lemma ReportedVerdict(e: ApiErrors.Tree)
    ensures VerdictOfError(Reported(e)) == VerdictOfError(e)
    ensures VerdictOfError(e) == Idle <==> ApiErrors.Is(e, ApiErrors.CleanupPaused)
  {
    ApiErrors.WrappedDecides(e);
    ApiErrors.WrappedDecides(ApiErrors.Wrap([e]));
    ApiErrors.WrappedDecides(ApiErrors.Wrap([ApiErrors.Wrap([e])]));
    hide ApiErrors.Is;
  }

  lemma IdleRead(wd: World, w: Worker)
    requires IsRead(w) && StepRead(wd, w) == Done(Idle)
    ensures ObjectIsGone(wd, w) || IsFoundPaused(wd, w) || NothingToDo(wd, w)
  {
    hide Paused, OtherReferences, OpenSession, ReadCheckpoint, BindingMatches, SameInputs, SameSecret, TrimSpace, ClusterNameFor;
  }

  /** No deletion is given up: whatever is answered, a reconcile that does not come back is one
      whose object is gone, was found paused, needs nothing, or had its finalizer settled by it. */
  lemma IdleOnlyWhenDone(wd: World, id: nat, w: Worker, reply: Reply)
    requires !w.Done? && Step(wd, id, w, reply).worker == Done(Idle)
    ensures ObjectIsGone(wd, w) || IsFoundPaused(wd, w) || NothingToDo(wd, w) || SettledFinalizer(Step(wd, id, w, reply))
         || AnswersPaused(w, reply)
  {
    if IsRead(w) {
      hide StepRead, ObjectIsGone, IsFoundPaused, NothingToDo;
      IdleRead(wd, w);
    } else {
      hide RunSpec, AfterCleanup, PutCluster, RemoveSecret, Encode, ApiErrors.ClassifyApplicationCredentialDelete, ApiErrors.Is, VerdictOfError,
           Reported, RemoveFinalizer;
      AfterCleanupIsNotIdle(wd, w, reply);
      if w.SendCredentialDelete? && reply.Answered? {
        var e := ApiErrors.ClassifyApplicationCredentialDelete(reply.error);
        if e.Some? {
          ReportedVerdict(e.value);
        }
      }
    }
  }

  /** And then it does end: an object that is gone, paused or in order is left alone. */
  lemma IdleWhenNothingToDo(wd: World, id: nat, w: Worker)
    requires !w.Done? && (ObjectIsGone(wd, w) || IsFoundPaused(wd, w) || NothingToDo(wd, w))
    requires w.Adopt? && w.obs.name in wd.clusters ==> wd.clusters[w.obs.name].uid == w.obs.uid
    ensures Step(wd, id, w, Normal) == Only(wd, Done(Idle))
  {
    hide Paused, OtherReferences, SameInputs, PutCluster, BeginDelete;
  }

  lemma AfterCleanupIsNotIdle(wd: World, w: Worker, reply: Reply)
    ensures w.Verify? ==> AfterCleanup(wd, w.obs, w.secret, w.binding) != Done(Idle)
  {
    hide RequestsCredentialDeletion, FirstState, ValidateBinding, BindingMatches;
  }

  /** While OpenStack still deletes, the object is looked at again later, not as a failure. */
  lemma WaitingIsLookedAtAgain(wd: World, id: nat, obs: Cluster, secret: Secret, b: Binding, inv: Inventory, answers: nat -> Answer)
    ensures RunSpec(RequestFor(wd, obs), inv, answers, 0).result == Ok(Waiting) ==>
      Step(wd, id, Verify(obs, secret, b), Ran(inv, answers)) == Transition(wd, Done(Requeue), [])
    ensures RunSpec(RequestFor(wd, obs), inv, answers, 0).result.Err? ==>
      Step(wd, id, Verify(obs, secret, b), Ran(inv, answers)) == Transition(wd, Done(Retry), [])
  {
    hide RunSpec, AfterCleanup;
  }

  // ---------- the two ends that do not need the finalizer alone ----------

  /** A Secret without the delete policy: once the cleanup is complete the finalizer goes even if
      other finalizers are there, and they stay. */
  lemma KeepPolicyFinishes(wd: World, id: nat, obs: Cluster, secret: Secret, b: Binding, before: seq<string>, after: seq<string>)
    requires Get(secret.annotations, "janitor.capi.stackhpc.com/credential-policy") != Some("delete")
    requires obs.finalizers == before + [FINALIZER] + after && FINALIZER !in before && FINALIZER !in after
    requires obs.name in wd.clusters && wd.clusters[obs.name] == obs && obs.deleting && !Paused(wd.owners, obs)
    requires Find(wd, obs.identity.name) == Some(secret)
    ensures var seen, goal := Some(secret), Finish(false);
      && AfterCleanup(wd, obs, secret, b) == RecheckSecret(obs, seen, goal)
      && StepRead(wd, RecheckSecret(obs, seen, goal)) == RecheckCluster(obs, seen, goal)
      && StepRead(wd, RecheckCluster(obs, seen, goal)) == RecheckPause(obs, seen, goal, obs)
      && StepRead(wd, RecheckPause(obs, seen, goal, obs)) == SendPatch(obs, seen, goal, obs)
      && Step(wd, id, SendPatch(obs, seen, goal, obs), Normal).world == PutCluster(wd, obs.(finalizers := before + after))
  {
    hide Paused, ClusterNameFor, VolumesPolicyFor, CheckpointText, RemoveFinalizer, PutCluster, Step, StepRead, AfterCleanup;
    RemovesOnlyOurs(before, after);
    assert FINALIZER in obs.finalizers;
    KeepPolicyGoesOn(wd, obs, secret, b);
    UnopposedPatch(wd, id, obs, Some(secret));
  }

  lemma KeepPolicyGoesOn(wd: World, obs: Cluster, secret: Secret, b: Binding)
    requires Get(secret.annotations, "janitor.capi.stackhpc.com/credential-policy") != Some("delete")
    requires obs.name in wd.clusters && wd.clusters[obs.name] == obs && obs.deleting && HasFinalizer(obs) && !Paused(wd.owners, obs)
    requires Find(wd, obs.identity.name) == Some(secret)
    ensures var seen, goal := Some(secret), Finish(false);
      && AfterCleanup(wd, obs, secret, b) == RecheckSecret(obs, seen, goal)
      && StepRead(wd, RecheckSecret(obs, seen, goal)) == RecheckCluster(obs, seen, goal)
      && StepRead(wd, RecheckCluster(obs, seen, goal)) == RecheckPause(obs, seen, goal, obs)
      && StepRead(wd, RecheckPause(obs, seen, goal, obs)) == SendPatch(obs, seen, goal, obs)
  {
    hide Paused, ClusterNameFor, VolumesPolicyFor, CheckpointText, FirstState, ValidateBinding, BindingMatches, OtherReferences;
  }

  lemma UnopposedPatch(wd: World, id: nat, obs: Cluster, seen: Option<Secret>)
    requires obs.name in wd.clusters && wd.clusters[obs.name] == obs
    ensures Step(wd, id, SendPatch(obs, seen, Finish(false), obs), Normal).world
         == PutCluster(wd, obs.(finalizers := RemoveFinalizer(obs.finalizers)))
  {
    hide RemoveFinalizer, PutCluster, Encode;
  }

  /** Adoption: one undisturbed reconcile of a live, unpaused object without the finalizer adds it. */
  lemma QuietAdoption(wd: World, inv: Inventory, c: Cluster, id: nat)
    requires c.name in wd.clusters && wd.clusters[c.name] == c && !c.deleting && FINALIZER !in c.finalizers && !Paused(wd.owners, c)
    ensures Drive(Quiet(inv, false), id, Frame(wd, 0, []), Start(c.name)).0.world
         == PutCluster(wd, c.(finalizers := c.finalizers + [FINALIZER]))
  {
    hide Drive, Quiet, Paused, PutCluster;
    QuietRead(inv, false, id, Frame(wd, 0, []), Start(c.name));
    QuietRead(inv, false, id, Frame(wd, 1, []), CheckPause(c));
    QuietRead(inv, false, id, Frame(wd, 2, []), Adopt(c));
    QuietRead(inv, false, id, Frame(wd, 3, []), AdoptCheckPause(c));
    QuietAdopt(wd, inv, c, id);
  }

  lemma QuietAdopt(wd: World, inv: Inventory, c: Cluster, id: nat)
    requires c.name in wd.clusters && wd.clusters[c.name] == c
    ensures Drive(Quiet(inv, false), id, Frame(wd, 4, []), AdoptPatch(c)).0.world
         == PutCluster(wd, c.(finalizers := c.finalizers + [FINALIZER]))
  {
    hide Drive, PutCluster;
    var o := Quiet(inv, false);
    WriteStep(o, id, Frame(wd, 4, []), AdoptPatch(c));
    DoneDrives(o, id, NextFrame(o, id, Frame(wd, 4, []), AdoptPatch(c)), Idle);
  }
}
