/** Every step of the system keeps the invariant. */
module Preservation {
  import opened Results
  import opened Credentials
  import opened Objects
  import opened Lifecycle
  import opened Checkpoint
  import opened Runner
  import opened RunnerSafety
  import opened Protocol
  import opened Evolution
  import opened Invariants

  // ---------- reads ----------

  lemma FindIsSeen(wd: World, tr: seq<Event>, obs: Cluster)
    requires SharedOk(wd, tr)
    ensures SeenOk(wd, obs, Find(wd, obs.identity.name))
  {
    if obs.identity.name in wd.secrets {
      StoredSecretIsSnapshot(wd, obs.identity.name);
    }
  }

  /** A recorded Secret that its name no longer finds is gone for good. */
  lemma AbsentSecretIsGone(wd: World, s: State)
    requires Wellformed(wd) && SecretKnown(wd, s) && s.secretName !in wd.secrets
    ensures SecretIsGone(wd, s.secretUID)
  {
  }

  lemma BeginResumeOk(wd: World, tr: seq<Event>, id: nat, obs: Cluster, s: State)
    requires SharedOk(wd, tr) && ObsOk(wd, tr, obs) && ReadCheckpoint(obs) == Good(s)
    ensures WorkerOk(wd, tr, id, BeginResume(wd.operatorDefault, obs, Find(wd, obs.identity.name), s))
  {
    hide ReadCheckpoint, SecretMatches, SelectedCloud, IsSnapshot, StoreOk, RecordsAreStored, RecordsAgree, FinishedSecretsAreGone,
         TraceJustified, FirstStateOk, Encode;
    GoodHasPhase(obs);
    FindIsSeen(wd, tr, obs);
    if BindingMatches(wd.operatorDefault, obs, Find(wd, obs.identity.name), s) && obs.identity.name !in wd.secrets {
      AbsentSecretIsGone(wd, s);
    }
  }

  lemma FirstStateIsValid(wd: World, obs: Cluster, secret: Secret, b: Binding)
    requires Named(obs) && SeenOk(wd, obs, Some(secret)) && obs.uid != "" && secret.uid != "" && ValidateBinding(b).Ok?
    ensures IsValid(FirstState(wd, obs, secret, b))
  {
    hide ValidateBinding;
  }

  lemma AfterCleanupOk(wd: World, tr: seq<Event>, id: nat, obs: Cluster, secret: Secret, b: Binding)
    requires ObsOk(wd, tr, obs) && SeenOk(wd, obs, Some(secret)) && Named(obs) && ReadCheckpoint(obs).Absent?
    requires CleanedBy(tr, id, obs, secret, b)
    ensures WorkerOk(wd, tr, id, AfterCleanup(wd, obs, secret, b))
  {
    hide ReadCheckpoint, ObsOk, SeenOk, ValidateBinding, BindingMatches, IsValid;
    if obs.uid != "" && secret.uid != "" && ValidateBinding(b).Ok? {
      FirstStateIsValid(wd, obs, secret, b);
    }
  }

  lemma FirstReadsOk(wd: World, tr: seq<Event>, id: nat, w: Worker)
    requires SharedOk(wd, tr) && WorkerOk(wd, tr, id, w)
    requires w.Start? || w.CheckPause? || w.Adopt? || w.AdoptCheckPause? || w.ReadSecret? || w.Authenticate?
    ensures WorkerOk(wd, tr, id, StepRead(wd, w))
  {
    hide ReadCheckpoint, IsSnapshot, CheckpointOk, SeenOk, GoalOk, FirstStateOk, BindingMatches, Paused, OpenSession, BeginResume,
         RecordsAreStored, RecordsAgree, FinishedSecretsAreGone, TraceJustified;
    match w
    case Start(name) =>
      if name in wd.clusters {
        StoredIsSnapshot(wd, name);
      }
    case CheckPause(obs) =>
    case Adopt(obs) =>
      if obs.name in wd.clusters {
        StoredIsSnapshot(wd, obs.name);
      }
    case AdoptCheckPause(latest) =>
    case ReadSecret(obs) =>
      FindIsSeen(wd, tr, obs);
      if ReadCheckpoint(obs).Good? {
        BeginResumeOk(wd, tr, id, obs, ReadCheckpoint(obs).state);
      } else {
        CheckpointIsNotBad(wd, tr, obs);
      }
    case Authenticate(obs, secret) =>
  }

  lemma RecheckReadsOk(wd: World, tr: seq<Event>, id: nat, w: Worker)
    requires SharedOk(wd, tr) && WorkerOk(wd, tr, id, w)
    requires w.CheckReferences? || w.Resume? || w.RecheckSecret? || w.RecheckCluster? || w.RecheckPause? || w.RecheckReferences?
    ensures WorkerOk(wd, tr, id, StepRead(wd, w))
  {
    hide ReadCheckpoint, IsSnapshot, ObsOk, SeenOk, GoalOk, FirstStateOk, BindingMatches, Paused, OtherReferences,
         OpenSession, IsValid, SameSecret, SameInputs, StoreOk, RecordsAreStored, RecordsAgree, FinishedSecretsAreGone, TraceJustified;
    match w
    case CheckReferences(obs, secret, s) => CheckReferencesOk(wd, tr, id, obs, secret, s);
    case Resume(obs, secret, s) => ResumeOk(wd, tr, id, obs, secret, s);
    case RecheckSecret(obs, seen, goal) =>
    case RecheckCluster(obs, seen, goal) =>
      if obs.name in wd.clusters {
        StoredIsSnapshot(wd, obs.name);
      }
    case RecheckPause(obs, seen, goal, latest) =>
    case RecheckReferences(obs, seen, goal) =>
  }

  /** What a read brings back is a fact about the world it was read from. */
  lemma StepReadOk(wd: World, tr: seq<Event>, id: nat, w: Worker)
    requires SharedOk(wd, tr) && WorkerOk(wd, tr, id, w) && IsRead(w)
    ensures WorkerOk(wd, tr, id, StepRead(wd, w))
  {
    hide WorkerOk, StepRead, SharedOk;
    if w.Start? || w.CheckPause? || w.Adopt? || w.AdoptCheckPause? || w.ReadSecret? || w.Authenticate? {
      FirstReadsOk(wd, tr, id, w);
    } else {
      RecheckReadsOk(wd, tr, id, w);
    }
  }

  lemma CheckpointIsNotBad(wd: World, tr: seq<Event>, obs: Cluster)
    requires CheckpointOk(wd, tr, obs)
    ensures !ReadCheckpoint(obs).Bad?
  {
  }

  lemma CheckReferencesOk(wd: World, tr: seq<Event>, id: nat, obs: Cluster, secret: Secret, s: State)
    requires FirstStateOk(wd, tr, id, obs, secret, s)
    ensures GoalOk(wd, tr, id, obs, Some(secret), Save(s)) && GoalOk(wd, tr, id, obs, Some(secret), Finish(true))
  {
    hide ReadCheckpoint, IsValid, FirstState, CleanedBy, SecretIsGone, BindingMatches;
    assert CleanedBy(tr, id, obs, secret, s.cloud);
  }

  lemma ResumeOk(wd: World, tr: seq<Event>, id: nat, obs: Cluster, secret: Secret, s: State)
    requires ResumesState(wd, obs, Some(secret), s, STARTED)
    ensures GoalOk(wd, tr, id, obs, Some(secret), DeleteCredential(s, s.cloud))
  {
    hide ReadCheckpoint, BindingMatches;
  }

  // ---------- the trace ----------

  lemma AppendJustified(operatorDefault: string, tr: seq<Event>, e: Event)
    requires TraceJustified(operatorDefault, tr) && Justified(operatorDefault, tr, e)
    ensures TraceJustified(operatorDefault, tr + [e]) && Grows(tr, tr + [e])
  {
    hide Justified;
    var tr' := tr + [e];
    forall i | 0 <= i < |tr'|
      ensures Justified(operatorDefault, tr'[..i], tr'[i])
    {
      assert tr'[..i] == if i < |tr| then tr[..i] else tr;
    }
  }

  /** No stored object gained a checkpoint or changed one. */
  ghost predicate CheckpointsUntouched(wd: World, wd': World) {
    forall n :: n in wd'.clusters ==>
      || (CheckpointText(wd'.clusters[n]).None? && wd'.clusters[n].uid !in wd.clusterUIDs)
      || (n in wd.clusters && wd'.clusters[n].uid == wd.clusters[n].uid
          && CheckpointText(wd'.clusters[n]) == CheckpointText(wd.clusters[n]))
  }

  lemma SameTextOk(wd: World, tr: seq<Event>, c: Cluster, c': Cluster)
    requires c'.uid == c.uid && CheckpointText(c') == CheckpointText(c) && CheckpointOk(wd, tr, c)
    ensures CheckpointOk(wd, tr, c')
  {
  }

  lemma StoreStays(wd: World, wd': World, tr: seq<Event>, tr': seq<Event>)
    requires Evolves(wd, wd') && Grows(tr, tr') && StoreOk(wd, tr) && CheckpointsUntouched(wd, wd')
    ensures StoreOk(wd', tr')
  {
    hide Later, Evolves, CheckpointOk;
    forall n | n in wd'.clusters
      ensures CheckpointOk(wd', tr', wd'.clusters[n])
    {
      if CheckpointText(wd'.clusters[n]).None? {
        NoTextOk(wd', tr', wd'.clusters[n]);
      } else {
        CheckpointStays(wd, wd', tr, tr', wd.clusters[n]);
        SameTextOk(wd', tr', wd.clusters[n], wd'.clusters[n]);
      }
    }
  }

  lemma NoTextOk(wd: World, tr: seq<Event>, c: Cluster)
    requires CheckpointText(c).None?
    ensures CheckpointOk(wd, tr, c)
  {
  }

  lemma RecordsStay(wd: World, wd': World, tr: seq<Event>)
    requires Evolves(wd, wd') && RecordsAreStored(wd, tr) && CheckpointsUntouched(wd, wd')
    ensures RecordsAreStored(wd', tr)
  {
    hide Later;
    forall id, u, s | Saved(id, u, s) in tr
      ensures u in wd'.clusterUIDs
      ensures forall n :: n in wd'.clusters && wd'.clusters[n].uid == u ==>
        ReadCheckpoint(wd'.clusters[n]).Good? && Advances(s, ReadCheckpoint(wd'.clusters[n]).state)
    {
      forall n | n in wd'.clusters && wd'.clusters[n].uid == u
        ensures ReadCheckpoint(wd'.clusters[n]).Good? && Advances(s, ReadCheckpoint(wd'.clusters[n]).state)
      {
        assert ReadCheckpoint(wd'.clusters[n]) == ReadCheckpoint(wd.clusters[n]);
      }
    }
  }

  lemma FinishedStay(wd: World, wd': World, tr: seq<Event>)
    requires Evolves(wd, wd') && FinishedSecretsAreGone(wd, tr)
    ensures FinishedSecretsAreGone(wd', tr)
  {
    hide ReadCheckpoint, Evolves;
    forall id, c | FinalizerRemoved(id, c) in tr && ReadCheckpoint(c).Good?
      ensures SecretIsGone(wd', ReadCheckpoint(c).state.secretUID)
    {
      GoneSecretsStayGone(wd, wd', ReadCheckpoint(c).state.secretUID);
    }
  }

  lemma SharedStays(wd: World, wd': World, tr: seq<Event>)
    requires SharedOk(wd, tr) && Wellformed(wd') && Evolves(wd, wd') && CheckpointsUntouched(wd, wd')
    ensures SharedOk(wd', tr)
  {
    hide StoreOk, RecordsAreStored, RecordsAgree, FinishedSecretsAreGone, TraceJustified, CheckpointsUntouched;
    StoreStays(wd, wd', tr, tr);
    RecordsStay(wd, wd', tr);
    FinishedStay(wd, wd', tr);
  }

  lemma StoreAppends(wd: World, tr: seq<Event>, e: Event)
    requires StoreOk(wd, tr)
    ensures StoreOk(wd, tr + [e])
  {
    hide CheckpointOk;
    forall n | n in wd.clusters
      ensures CheckpointOk(wd, tr + [e], wd.clusters[n])
    {
      CheckpointStaysInTrace(wd, tr, tr + [e], wd.clusters[n]);
    }
  }

  lemma RecordsAppend(wd: World, tr: seq<Event>, e: Event)
    requires RecordsAreStored(wd, tr) && RecordsAgree(tr) && !e.Saved?
    ensures RecordsAreStored(wd, tr + [e]) && RecordsAgree(tr + [e])
  {
    hide ReadCheckpoint, Advances;
    assert forall id, u, s :: Saved(id, u, s) in tr + [e] ==> Saved(id, u, s) in tr;
  }

  lemma FinishedAppends(wd: World, tr: seq<Event>, e: Event)
    requires FinishedSecretsAreGone(wd, tr)
    requires e.FinalizerRemoved? && ReadCheckpoint(e.cluster).Good? ==>
      SecretIsGone(wd, ReadCheckpoint(e.cluster).state.secretUID)
    ensures FinishedSecretsAreGone(wd, tr + [e])
  {
    hide ReadCheckpoint, SecretIsGone;
    assert forall x :: x in tr + [e] <==> x in tr || x == e;
  }

  /** An event that is not a record may join the trace. */
  lemma SharedAppend(wd: World, tr: seq<Event>, e: Event)
    requires SharedOk(wd, tr) && Justified(wd.operatorDefault, tr, e) && !e.Saved?
    requires e.FinalizerRemoved? && ReadCheckpoint(e.cluster).Good? ==>
      SecretIsGone(wd, ReadCheckpoint(e.cluster).state.secretUID)
    ensures SharedOk(wd, tr + [e]) && Grows(tr, tr + [e])
  {
    hide StoreOk, RecordsAreStored, RecordsAgree, FinishedSecretsAreGone, TraceJustified, Justified, Wellformed, ReadCheckpoint, Grows,
         SecretIsGone;
    AppendJustified(wd.operatorDefault, tr, e);
    StoreAppends(wd, tr, e);
    RecordsAppend(wd, tr, e);
    FinishedAppends(wd, tr, e);
  }

  lemma CheckpointStaysInTrace(wd: World, tr: seq<Event>, tr': seq<Event>, c: Cluster)
    requires Grows(tr, tr') && CheckpointOk(wd, tr, c)
    ensures CheckpointOk(wd, tr', c)
  {
    hide ReadCheckpoint, Encode;
    if ReadCheckpoint(c).Good? {
      var id :| Saved(id, c.uid, ReadCheckpoint(c).state) in tr;
      assert Saved(id, c.uid, ReadCheckpoint(c).state) in tr';
    }
  }
}
