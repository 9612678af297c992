/** Each worker step keeps the invariant; hence it holds in every state of every run. */
module StepSafety {
  import opened Results
  import opened Credentials
  import opened Objects
  import opened Lifecycle
  import opened Checkpoint
  import opened Runner
  import opened RunnerSafety
  import opened Protocol
  import opened Evolution
  import opened Invariants
  import opened Preservation
  import ApiErrors

  ghost predicate Keeps(wd: World, tr: seq<Event>, id: nat, t: Transition) {
    && Evolves(wd, t.world) && SharedOk(t.world, tr + t.events) && Grows(tr, tr + t.events)
    && WorkerOk(t.world, tr + t.events, id, t.worker)
  }

  lemma EvolvesReflexively(wd: World)
    ensures Evolves(wd, wd)
  {
    hide Later;
    forall n | n in wd.clusters
      ensures Later(wd.clusters[n], wd.clusters[n])
    {
      LaterIsReflexive(wd.clusters[n]);
    }
  }

  lemma OnlyKeeps(wd: World, tr: seq<Event>, id: nat, w: Worker)
    requires SharedOk(wd, tr) && WorkerOk(wd, tr, id, w)
    ensures Keeps(wd, tr, id, Only(wd, w))
  {
    hide SharedOk, WorkerOk, Evolves;
    EvolvesReflexively(wd);
    assert tr + [] == tr;
  }

  lemma VerifyKeeps(wd: World, tr: seq<Event>, id: nat, obs: Cluster, secret: Secret, b: Binding, reply: Reply)
    requires SharedOk(wd, tr) && WorkerOk(wd, tr, id, Verify(obs, secret, b))
    ensures Keeps(wd, tr, id, StepVerify(wd, id, obs, secret, b, reply))
  {
    hide SharedOk, ObsOk, SeenOk, Evolves, AfterCleanup, ReadCheckpoint, Drained, RunSpec;
    var t := StepVerify(wd, id, obs, secret, b, reply);
    if t.events == [] {
      OnlyKeeps(wd, tr, id, t.worker);
    } else {
      var e := Cleaned(id, obs, secret, b, reply.inv);
      EvolvesReflexively(wd);
      CompleteIff(RequestFor(wd, obs), reply.inv, reply.answers, 0);
      SharedAppend(wd, tr, e);
      assert e in tr + [e];
      assert CleanedBy(tr + [e], id, obs, secret, b);
      ObsAppends(wd, tr, tr + [e], obs);
      AfterCleanupOk(wd, tr + [e], id, obs, secret, b);
    }
  }

  lemma ObsAppends(wd: World, tr: seq<Event>, tr': seq<Event>, obs: Cluster)
    requires Grows(tr, tr') && ObsOk(wd, tr, obs)
    ensures ObsOk(wd, tr', obs)
  {
    hide CheckpointOk, IsSnapshot;
    CheckpointStaysInTrace(wd, tr, tr', obs);
  }

  lemma DropCredentialEvolves(wd: World, key: CredentialKey)
    requires Wellformed(wd)
    ensures var wd' := wd.(credentials := wd.credentials - {key});
      Wellformed(wd') && Evolves(wd, wd') && CheckpointsUntouched(wd, wd')
  {
    EvolvesReflexively(wd);
    hide Later;
  }

  /** The credential may be dropped, and both events may be recorded, without touching the store. */
  lemma CredentialEvents(wd: World, tr: seq<Event>, id: nat, obs: Cluster, s: State, answer: Option<ApiErrors.Tree>)
    requires SharedOk(wd, tr) && s.phase == STARTED && Recorded(tr, obs.uid, s)
    ensures var sent := CredentialDeleteSent(id, obs.uid, s, s.cloud);
      && SharedOk(wd, tr + [sent]) && Grows(tr, tr + [sent])
      && (ApiErrors.Confirms(answer) ==>
            var both := tr + [sent, CredentialDeleteConfirmed(id, obs.uid, s, s.cloud, answer)];
            SharedOk(wd, both) && Grows(tr, both))
  {
    hide SharedOk, Recorded;
    var sent, confirmed := CredentialDeleteSent(id, obs.uid, s, s.cloud), CredentialDeleteConfirmed(id, obs.uid, s, s.cloud, answer);
    SharedAppend(wd, tr, sent);
    assert sent in tr + [sent];
    if ApiErrors.Confirms(answer) {
      SharedAppend(wd, tr + [sent], confirmed);
      assert tr + [sent] + [confirmed] == tr + [sent, confirmed];
    }
  }

  lemma DropCredentialKeepsShared(wd: World, tr: seq<Event>, key: CredentialKey)
    requires SharedOk(wd, tr)
    ensures var wd' := wd.(credentials := wd.credentials - {key}); SharedOk(wd', tr) && Evolves(wd, wd')
  {
    hide StoreOk, RecordsAreStored, RecordsAgree, FinishedSecretsAreGone, TraceJustified, CheckpointsUntouched, Evolves, Wellformed;
    DropCredentialEvolves(wd, key);
    SharedStays(wd, wd.(credentials := wd.credentials - {key}), tr);
  }

  lemma CredentialDeleteKeeps(wd: World, tr: seq<Event>, id: nat, obs: Cluster, seen: Option<Secret>, s: State,
                              session: Binding, reply: Reply)
    requires SharedOk(wd, tr) && WorkerOk(wd, tr, id, SendCredentialDelete(obs, seen, s, session))
    ensures Keeps(wd, tr, id, StepCredentialDelete(wd, id, obs, seen, s, session, reply))
  {
    hide SharedOk, ObsOk, SeenOk, GoalOk, Evolves, Recorded, SecretKnown, ReadCheckpoint, Grows, IsSnapshot, SameInputs,
         ApiErrors.ClassifyApplicationCredentialDelete, ApiErrors.Confirms, Reported, VerdictOfError,
         BindingMatches;
    var t := StepCredentialDelete(wd, id, obs, seen, s, session, reply);
    if t.events == [] {
      OnlyKeeps(wd, tr, id, t.worker);
    } else {
      GoalDeletesCredential(wd, tr, id, obs, seen, s, session);
      RecordedState(wd, tr, obs, s);
      EvolvesReflexively(wd);
      DropCredentialKeepsShared(wd, tr, KeyOf(session));
      ApiErrors.ConfirmedIff(reply.error);
      CredentialEvents(t.world, tr, id, obs, s, reply.error);
      if t.worker.RecheckSecret? {
        assert CredentialDeleteConfirmed(id, obs.uid, s, s.cloud, reply.error) in tr + t.events;
        ConfirmedWorkerOk(wd, t.world, tr, tr + t.events, id, obs, seen, s);
      }
    }
  }

  lemma ConfirmedWorkerOk(wd: World, wd': World, tr: seq<Event>, tr': seq<Event>, id: nat, obs: Cluster, seen: Option<Secret>, s: State)
    requires SharedOk(wd, tr) && Evolves(wd, wd') && Grows(tr, tr') && ObsOk(wd, tr, obs) && SeenOk(wd, obs, seen)
    requires ReadCheckpoint(obs) == Good(s) && s.phase == STARTED && BindingMatches(wd.operatorDefault, obs, seen, s)
    requires ConfirmedBy(tr', id, obs.uid, s, s.cloud)
    ensures WorkerOk(wd', tr', id, RecheckSecret(obs, seen, Save(s.(phase := CONFIRMED))))
  {
    hide SharedOk, ObsOk, SeenOk, GoalOk, Evolves, ReadCheckpoint, Grows, BindingMatches;
    assert Wellformed(wd) && wd'.operatorDefault == wd.operatorDefault by {
      SharedIsWellformed(wd, tr);
      EvolvesKeepsDefault(wd, wd');
    }
    hide Wellformed;
    SeenStays(wd, wd', obs, seen);
    ObsStays(wd, wd', tr, tr', obs);
    ConfirmedGoal(wd', tr', id, obs, seen, s);
  }

  lemma SharedIsWellformed(wd: World, tr: seq<Event>)
    requires SharedOk(wd, tr)
    ensures Wellformed(wd)
  {
    hide Wellformed, StoreOk, RecordsAreStored, RecordsAgree, FinishedSecretsAreGone, TraceJustified;
  }

  lemma EvolvesKeepsDefault(wd: World, wd': World)
    requires Evolves(wd, wd')
    ensures wd'.operatorDefault == wd.operatorDefault
  {
    hide Later;
  }

  lemma GoalDeletesCredential(wd: World, tr: seq<Event>, id: nat, obs: Cluster, seen: Option<Secret>, s: State, session: Binding)
    requires GoalOk(wd, tr, id, obs, seen, DeleteCredential(s, session))
    ensures session == s.cloud && s.phase == STARTED && ReadCheckpoint(obs) == Good(s)
    ensures BindingMatches(wd.operatorDefault, obs, seen, s)
  {
    hide ReadCheckpoint, BindingMatches;
  }

  lemma GoodIsValid(obs: Cluster, s: State)
    requires ReadCheckpoint(obs) == Good(s)
    ensures IsValid(s)
  {
    hide IsValid, Decode;
  }

  lemma RecordedCredentialIDIsSet(c: Cluster)
    requires ReadCheckpoint(c).Good?
    ensures ReadCheckpoint(c).state.cloud.credentialID != ""
  {
    GoodIsValid(c, ReadCheckpoint(c).state);
    CredentialIDIsSet(ReadCheckpoint(c).state);
    hide IsValid, ReadCheckpoint;
  }

  lemma CredentialIDIsSet(s: State)
    requires IsValid(s)
    ensures s.cloud.credentialID != ""
  {
  }

  lemma ConfirmedIsValid(s: State)
    requires IsValid(s)
    ensures IsValid(s.(phase := CONFIRMED))
  {
    hide ValidateBinding;
  }

  lemma ConfirmedMatches(operatorDefault: string, obs: Cluster, seen: Option<Secret>, s: State)
    requires BindingMatches(operatorDefault, obs, seen, s) && s.phase == STARTED
    ensures seen.Some? && BindingMatches(operatorDefault, obs, seen, s.(phase := CONFIRMED))
  {
    hide ClusterNameFor, VolumesPolicyFor, DescribeCredential, ConfigMatches;
  }

  lemma ConfirmedGoal(wd: World, tr: seq<Event>, id: nat, obs: Cluster, seen: Option<Secret>, s: State)
    requires ReadCheckpoint(obs) == Good(s) && s.phase == STARTED && BindingMatches(wd.operatorDefault, obs, seen, s)
    requires ConfirmedBy(tr, id, obs.uid, s, s.cloud)
    ensures GoalOk(wd, tr, id, obs, seen, Save(s.(phase := CONFIRMED)))
  {
    hide ReadCheckpoint, IsValid, FirstStateOk, BindingMatches;
    GoodIsValid(obs, s);
    ConfirmedIsValid(s);
    ConfirmedMatches(wd.operatorDefault, obs, seen, s);
    assert s.(phase := CONFIRMED).(phase := STARTED) == s;
  }

  lemma RecordedState(wd: World, tr: seq<Event>, obs: Cluster, s: State)
    requires ObsOk(wd, tr, obs)
    ensures ReadCheckpoint(obs) == Good(s) ==> Recorded(tr, obs.uid, s) && SecretKnown(wd, s) && s.clusterUID == obs.uid
  {
    hide IsSnapshot;
  }

  // ---------- deleting the Secret ----------

  /** Once a checkpointed cluster is finished, its recorded Secret is stored nowhere. */
  lemma StoredSecretIsUnfinished(wd: World, tr: seq<Event>, uid: string, s: State, n: string)
    requires SharedOk(wd, tr) && Recorded(tr, uid, s) && n in wd.secrets && wd.secrets[n].uid == s.secretUID
    ensures !FinishedWithCheckpoint(tr, uid)
  {
    hide ReadCheckpoint, Wellformed, StoreOk, RecordsAreStored;
    if FinishedWithCheckpoint(tr, uid) {
      var id, c :| FinalizerRemoved(id, c) in tr && c.uid == uid && ReadCheckpoint(c).Good?;
      RemovalIsRecorded(wd.operatorDefault, tr, id, c);
    }
  }

  lemma RemovalIsRecorded(operatorDefault: string, tr: seq<Event>, id: nat, c: Cluster)
    requires TraceJustified(operatorDefault, tr) && FinalizerRemoved(id, c) in tr && ReadCheckpoint(c).Good?
    ensures Recorded(tr, c.uid, ReadCheckpoint(c).state)
  {
    hide ReadCheckpoint, IsValid, Drained;
    var k :| 0 <= k < |tr| && tr[k] == FinalizerRemoved(id, c);
    assert Justified(operatorDefault, tr[..k], tr[k]);
    var i :| Saved(i, c.uid, ReadCheckpoint(c).state) in tr[..k];
    assert Saved(i, c.uid, ReadCheckpoint(c).state) in tr;
  }

  lemma MatchingSecretIsRecorded(wd: World, obs: Cluster, secret: Secret, s: State)
    requires SeenOk(wd, obs, Some(secret)) && ResumesState(wd, obs, Some(secret), s, CONFIRMED)
    ensures && secret.uid == s.secretUID && secret.name == s.secretName && RequestsCredentialDeletion(secret)
            && DescribeCredential(secret.clouds, s.cloud.cloudName).Ok?
            && ConfigMatches(DescribeCredential(secret.clouds, s.cloud.cloudName).value, s.cloud)
  {
    GoodIsValid(obs, s);
    hide ReadCheckpoint, DescribeCredential, ConfigMatches, IsSecretSnapshot, ValidateBinding;
  }

  lemma SecretDeleteKeeps(wd: World, tr: seq<Event>, id: nat, obs: Cluster, secret: Secret, s: State, reply: Reply)
    requires SharedOk(wd, tr) && WorkerOk(wd, tr, id, SendSecretDelete(obs, secret, s))
    ensures Keeps(wd, tr, id, StepSecretDelete(wd, id, obs, secret, s, reply))
  {
    hide SharedOk, ObsOk, SeenOk, Evolves, RequestsCredentialDeletion, DescribeCredential, ConfigMatches, BindingMatches,
         ReadCheckpoint, Recorded, SecretKnown, FinishedWithCheckpoint, RemoveSecret;
    var t := StepSecretDelete(wd, id, obs, secret, s, reply);
    if t.events == [] {
      OnlyKeeps(wd, tr, id, t.worker);
    } else {
      SnapshotIsStored(wd, obs, secret);
      MatchingSecretIsRecorded(wd, obs, secret, s);
      RecordedState(wd, tr, obs, s);
      StoredSecretIsUnfinished(wd, tr, obs.uid, s, secret.name);
      var e := SecretDeleted(id, obs.uid, s, secret);
      SharedAppend(wd, tr, e);
      RemoveSecretKeepsShared(wd, tr + [e], secret.name);
    }
  }

  lemma SnapshotIsStored(wd: World, obs: Cluster, secret: Secret)
    requires SeenOk(wd, obs, Some(secret)) && secret.name in wd.secrets
    requires wd.secrets[secret.name].uid == secret.uid && wd.secrets[secret.name].version == secret.version
    ensures wd.secrets[secret.name] == secret
  {
  }

  lemma RemoveSecretKeepsShared(wd: World, tr: seq<Event>, n: string)
    requires SharedOk(wd, tr) && n in wd.secrets
    ensures SharedOk(RemoveSecret(wd, wd.secrets[n]), tr) && Evolves(wd, RemoveSecret(wd, wd.secrets[n]))
  {
    hide StoreOk, RecordsAreStored, RecordsAgree, FinishedSecretsAreGone, TraceJustified, Evolves, Wellformed;
    RemoveSecretEvolves(wd, n);
    assert Wellformed(wd);
    SharedStays(wd, RemoveSecret(wd, wd.secrets[n]), tr);
  }

  // ---------- patching the cluster ----------

  /** The optimistic lock: an object at the version that was read is the object that was read. */
  lemma LockedIsStored(wd: World, latest: Cluster)
    requires IsSnapshot(wd, latest) && latest.name in wd.clusters && wd.clusters[latest.name].version == latest.version
    ensures wd.clusters[latest.name] == latest
  {
  }

  lemma FinalizerEvolves(wd: World, tr: seq<Event>, c: Cluster, finalizers: seq<string>)
    requires SharedOk(wd, tr) && c.name in wd.clusters && wd.clusters[c.name] == c
    ensures var wd' := PutCluster(wd, c.(finalizers := finalizers)); SharedOk(wd', tr) && Evolves(wd, wd')
  {
    var c' := c.(finalizers := finalizers);
    assert CheckpointText(c') == CheckpointText(c);
    PutClusterEvolves(wd, c');
    hide StoreOk, RecordsAreStored, RecordsAgree, FinishedSecretsAreGone, TraceJustified, Evolves, Wellformed;
    SharedStays(wd, PutCluster(wd, c'), tr);
  }

  lemma SoleFinalizer(c: Cluster)
    requires HasFinalizer(c) && |c.finalizers| == 1
    ensures c.finalizers == [FINALIZER]
  {
  }

  lemma SameInputsSameCheckpoint(operatorDefault: string, obs: Cluster, latest: Cluster)
    requires SameInputs(operatorDefault, obs, latest)
    ensures ReadCheckpoint(latest) == ReadCheckpoint(obs) && SameScope(operatorDefault, obs, latest)
  {
  }

  lemma FinishGoalFacts(wd: World, tr: seq<Event>, id: nat, obs: Cluster, seen: Option<Secret>, sole: bool)
    requires GoalOk(wd, tr, id, obs, seen, Finish(sole))
    ensures !ReadCheckpoint(obs).Bad?
    ensures ReadCheckpoint(obs).Absent? ==> exists secret, b :: CleanedBy(tr, id, obs, secret, b)
    ensures ReadCheckpoint(obs).Good? ==>
      var s := ReadCheckpoint(obs).state;
      sole && s.phase == CONFIRMED && RecordedScope(wd.operatorDefault, obs, s) && SecretIsGone(wd, s.secretUID)
  {
    hide ReadCheckpoint, CleanedBy, RecordedScope, SecretIsGone;
  }

  lemma FinishIsJustified(wd: World, tr: seq<Event>, id: nat, obs: Cluster, seen: Option<Secret>, sole: bool, latest: Cluster)
    requires ObsOk(wd, tr, obs) && GoalOk(wd, tr, id, obs, seen, Finish(sole)) && SameInputs(wd.operatorDefault, obs, latest)
    ensures Justified(wd.operatorDefault, tr, FinalizerRemoved(id, latest))
    ensures ReadCheckpoint(latest).Good? ==> SecretIsGone(wd, ReadCheckpoint(latest).state.secretUID)
  {
    hide ReadCheckpoint, CleanedBy, SecretIsGone, ObsOk, GoalOk, Recorded, SecretKnown, SameInputs, ClusterNameFor, VolumesPolicyFor;
    FinishGoalFacts(wd, tr, id, obs, seen, sole);
    SameInputsSameCheckpoint(wd.operatorDefault, obs, latest);
    if ReadCheckpoint(obs).Good? {
      RecordedState(wd, tr, obs, ReadCheckpoint(obs).state);
    } else {
      var secret, b :| CleanedBy(tr, id, obs, secret, b);
      assert CleanedScope(wd.operatorDefault, tr, id, latest);
    }
  }

  lemma FinishKeeps(wd: World, tr: seq<Event>, id: nat, obs: Cluster, seen: Option<Secret>, sole: bool, latest: Cluster, reply: Reply)
    requires SharedOk(wd, tr) && WorkerOk(wd, tr, id, SendPatch(obs, seen, Finish(sole), latest))
    ensures Keeps(wd, tr, id, StepPatch(wd, id, obs, Finish(sole), latest, reply))
  {
    hide SharedOk, ObsOk, SeenOk, GoalOk, Evolves, IsSnapshot, SameInputs, ReadCheckpoint, PutCluster, Justified;
    var t := StepPatch(wd, id, obs, Finish(sole), latest, reply);
    if t.events == [] {
      OnlyKeeps(wd, tr, id, t.worker);
    } else {
      LockedIsStored(wd, latest);
      FinishIsJustified(wd, tr, id, obs, seen, sole, latest);
      SharedAppend(wd, tr, FinalizerRemoved(id, latest));
      FinalizerEvolves(wd, tr + t.events, latest, RemoveFinalizer(latest.finalizers));
    }
  }

  lemma AdoptKeeps(wd: World, tr: seq<Event>, id: nat, latest: Cluster, reply: Reply)
    requires SharedOk(wd, tr) && WorkerOk(wd, tr, id, AdoptPatch(latest))
    ensures Keeps(wd, tr, id, StepAdopt(wd, id, latest, reply))
  {
    hide SharedOk, Evolves, IsSnapshot, ReadCheckpoint, PutCluster;
    var t := StepAdopt(wd, id, latest, reply);
    if t.events == [] {
      OnlyKeeps(wd, tr, id, t.worker);
    } else {
      LockedIsStored(wd, latest);
      SharedAppend(wd, tr, FinalizerAdded(id, latest));
      FinalizerEvolves(wd, tr + t.events, latest, latest.finalizers + [FINALIZER]);
    }
  }

  // ---------- recording a checkpoint ----------

  /** What is stored before a record is written: nothing, or the record's first phase. */
  ghost predicate RecordFits(wd: World, c: Cluster, s: State) {
    && c.name in wd.clusters && wd.clusters[c.name] == c && HasFinalizer(c)
    && IsValid(s) && s.clusterUID == c.uid && SecretKnown(wd, s)
    && (CheckpointText(c).None? || (s.phase == CONFIRMED && ReadCheckpoint(c) == Good(s.(phase := STARTED))))
  }

  function WithRecord(c: Cluster, s: State): Cluster {
    c.(annotations := c.annotations[CHECKPOINT_ANNOTATION := Encode(s)])
  }

  lemma RecordReads(c: Cluster, s: State)
    requires IsValid(s)
    ensures ReadCheckpoint(WithRecord(c, s)) == Good(s) && CheckpointText(WithRecord(c, s)) == Some(Encode(s))
  {
    hide Encode, Decode, Read;
    SelfAcceptance(s);
  }

  lemma RecordAdvances(wd: World, c: Cluster, s: State)
    requires RecordFits(wd, c, s)
    ensures CheckpointAdvances(c, WithRecord(c, s))
  {
    hide IsValid, Encode, ReadCheckpoint;
    if CheckpointText(c).Some? {
      assert s.(phase := STARTED).(phase := CONFIRMED) == s;
    }
  }

  lemma RecordEvolves(wd: World, c: Cluster, s: State)
    requires Wellformed(wd) && RecordFits(wd, c, s)
    ensures Wellformed(PutCluster(wd, WithRecord(c, s))) && Evolves(wd, PutCluster(wd, WithRecord(c, s)))
  {
    RecordAdvances(wd, c, s);
    hide IsValid, Encode, ReadCheckpoint, CheckpointAdvances, Evolves;
    PutClusterEvolves(wd, WithRecord(c, s));
  }

  /** Earlier records of the same object are at most one phase behind the new one. */
  lemma EarlierRecordsFit(wd: World, tr: seq<Event>, c: Cluster, s: State, id: nat, t: State)
    requires RecordsAreStored(wd, tr) && RecordFits(wd, c, s) && Saved(id, c.uid, t) in tr
    ensures Advances(t, s) && t.(phase := STARTED) == s.(phase := STARTED)
  {
    hide IsValid, Encode, Decode;
    assert ReadCheckpoint(c).Good? && Advances(t, ReadCheckpoint(c).state);
  }

  /** The store after the write: the object with its record, and everything else as it was. */
  lemma RecordIsPut(wd: World, c: Cluster, s: State)
    requires RecordFits(wd, c, s)
    ensures var wd' := PutCluster(wd, WithRecord(c, s));
      && wd'.clusters == wd.clusters[c.name := wd'.clusters[c.name]]
      && wd'.clusterUIDs == wd.clusterUIDs && wd'.secretNames == wd.secretNames
      && ReadCheckpoint(wd'.clusters[c.name]) == Good(s) && CheckpointText(wd'.clusters[c.name]) == Some(Encode(s))
      && wd'.clusters[c.name].uid == c.uid
  {
    hide IsValid, Encode, ReadCheckpoint, CheckpointText, SecretKnown;
    RecordReads(c, s);
    assert FINALIZER in c.finalizers;
    hide RecordFits, HasFinalizer;
    var stored := WithRecord(c, s).(version := wd.clock + 1);
    assert PutCluster(wd, WithRecord(c, s)).clusters == wd.clusters[c.name := stored];
    SameAnnotationsReadTheSame(WithRecord(c, s), stored);
  }

  lemma SameAnnotationsReadTheSame(c: Cluster, c': Cluster)
    requires c.annotations == c'.annotations
    ensures ReadCheckpoint(c) == ReadCheckpoint(c') && CheckpointText(c) == CheckpointText(c')
  {
  }

  lemma NewRecordAgrees(wd: World, tr: seq<Event>, c: Cluster, s: State, id: nat, i: nat, t: State)
    requires RecordsAreStored(wd, tr) && RecordFits(wd, c, s) && Saved(i, c.uid, t) in tr + [Saved(id, c.uid, s)]
    ensures Advances(t, s) && t.(phase := STARTED) == s.(phase := STARTED)
  {
    hide RecordFits, RecordsAreStored;
    if Saved(i, c.uid, t) in tr {
      EarlierRecordsFit(wd, tr, c, s, i, t);
    }
  }

  lemma RecordKeepsAgreement(wd: World, tr: seq<Event>, c: Cluster, s: State, id: nat)
    requires RecordsAreStored(wd, tr) && RecordsAgree(tr) && RecordFits(wd, c, s)
    ensures RecordsAgree(tr + [Saved(id, c.uid, s)])
  {
    hide RecordFits, RecordsAreStored;
    var tr' := tr + [Saved(id, c.uid, s)];
    forall i, j, u, t, t' | Saved(i, u, t) in tr' && Saved(j, u, t') in tr'
      ensures t.(phase := STARTED) == t'.(phase := STARTED)
    {
      if u == c.uid {
        NewRecordAgrees(wd, tr, c, s, id, i, t);
        NewRecordAgrees(wd, tr, c, s, id, j, t');
      }
    }
  }

  /** The clause of RecordsAreStored for one record. */
  ghost predicate RecordIsStored(wd: World, u: string, t: State) {
    && u in wd.clusterUIDs
    && forall n :: n in wd.clusters && wd.clusters[n].uid == u ==>
         ReadCheckpoint(wd.clusters[n]).Good? && Advances(t, ReadCheckpoint(wd.clusters[n]).state)
  }

  lemma OtherRecordStays(wd: World, c: Cluster, s: State, u: string, t: State)
    requires RecordFits(wd, c, s) && u != c.uid && RecordIsStored(wd, u, t)
    ensures RecordIsStored(PutCluster(wd, WithRecord(c, s)), u, t)
  {
    hide PutCluster, WithRecord, ReadCheckpoint, Encode, Advances, CheckpointText, RecordFits;
    RecordIsPut(wd, c, s);
    RecordIsInStore(wd, c, s);
  }

  lemma OwnRecordStays(wd: World, c: Cluster, s: State, t: State)
    requires Wellformed(wd) && RecordFits(wd, c, s) && Advances(t, s)
    ensures RecordIsStored(PutCluster(wd, WithRecord(c, s)), c.uid, t)
  {
    hide PutCluster, WithRecord, ReadCheckpoint, Encode, Advances, CheckpointText, RecordFits, Wellformed;
    RecordIsPut(wd, c, s);
    OnlyOneHasUID(wd, c, s);
    RecordIsInStore(wd, c, s);
  }

  lemma RecordIsInStore(wd: World, c: Cluster, s: State)
    requires RecordFits(wd, c, s)
    ensures c.name in wd.clusters && wd.clusters[c.name] == c
  {
    hide IsValid, ReadCheckpoint, SecretKnown;
  }

  lemma RecordKeepsRecords(wd: World, tr: seq<Event>, c: Cluster, s: State, id: nat)
    requires Wellformed(wd) && RecordsAreStored(wd, tr) && RecordFits(wd, c, s)
    ensures RecordsAreStored(PutCluster(wd, WithRecord(c, s)), tr + [Saved(id, c.uid, s)])
  {
    var tr' := tr + [Saved(id, c.uid, s)];
    var wd' := PutCluster(wd, WithRecord(c, s));
    hide PutCluster, WithRecord, ReadCheckpoint, Encode, Advances, RecordFits, Wellformed;
    forall i, u, t | Saved(i, u, t) in tr'
      ensures RecordIsStored(wd', u, t)
    {
      if u == c.uid {
        NewRecordAgrees(wd, tr, c, s, id, i, t);
        OwnRecordStays(wd, c, s, t);
      } else {
        assert Saved(i, u, t) in tr;
        OtherRecordStays(wd, c, s, u, t);
      }
    }
  }

  lemma OnlyOneHasUID(wd: World, c: Cluster, s: State)
    requires Wellformed(wd) && RecordFits(wd, c, s)
    ensures c.uid in wd.clusterUIDs && forall n :: n in wd.clusters && wd.clusters[n].uid == c.uid ==> n == c.name
  {
  }

  lemma RecordKeepsStore(wd: World, tr: seq<Event>, c: Cluster, s: State, id: nat)
    requires Wellformed(wd) && StoreOk(wd, tr) && RecordFits(wd, c, s)
    ensures StoreOk(PutCluster(wd, WithRecord(c, s)), tr + [Saved(id, c.uid, s)])
  {
    hide PutCluster, WithRecord, ReadCheckpoint, Encode, CheckpointText, Evolves, CheckpointOk, IsValid, Wellformed;
    var wd' := PutCluster(wd, WithRecord(c, s));
    var tr' := tr + [Saved(id, c.uid, s)];
    RecordIsPut(wd, c, s);
    RecordEvolves(wd, c, s);
    RecordedIsOk(wd', tr', wd'.clusters[c.name], s, id);
    forall n | n in wd'.clusters
      ensures CheckpointOk(wd', tr', wd'.clusters[n])
    {
      if n != c.name {
        CheckpointStays(wd, wd', tr, tr', wd.clusters[n]);
      }
    }
  }

  lemma RecordedIsOk(wd: World, tr: seq<Event>, c: Cluster, s: State, id: nat)
    requires ReadCheckpoint(c) == Good(s) && CheckpointText(c) == Some(Encode(s)) && s.clusterUID == c.uid
    requires Saved(id, c.uid, s) in tr && SecretKnown(wd, s)
    ensures CheckpointOk(wd, tr, c)
  {
    hide ReadCheckpoint, Encode, CheckpointText;
  }

  lemma RecordKeepsShared(wd: World, tr: seq<Event>, c: Cluster, s: State, id: nat)
    requires SharedOk(wd, tr) && RecordFits(wd, c, s) && Justified(wd.operatorDefault, tr, Saved(id, c.uid, s))
    ensures var wd', tr' := PutCluster(wd, WithRecord(c, s)), tr + [Saved(id, c.uid, s)];
      SharedOk(wd', tr') && Evolves(wd, wd') && Grows(tr, tr')
  {
    var wd' := PutCluster(wd, WithRecord(c, s));
    var e := Saved(id, c.uid, s);
    hide StoreOk, RecordsAreStored, RecordsAgree, Evolves, Wellformed, TraceJustified, Justified, RecordFits;
    RecordEvolves(wd, c, s);
    AppendJustified(wd.operatorDefault, tr, e);
    RecordKeepsStore(wd, tr, c, s, id);
    RecordKeepsRecords(wd, tr, c, s, id);
    RecordKeepsAgreement(wd, tr, c, s, id);
    FinishedStay(wd, wd', tr);
    FinishedAppends(wd', tr, e);
  }

  lemma SaveFits(wd: World, tr: seq<Event>, id: nat, obs: Cluster, seen: Option<Secret>, s: State, latest: Cluster)
    requires ObsOk(wd, tr, obs) && SeenOk(wd, obs, seen) && GoalOk(wd, tr, id, obs, seen, Save(s))
    requires SameInputs(wd.operatorDefault, obs, latest) && latest.name in wd.clusters && wd.clusters[latest.name] == latest
    ensures RecordFits(wd, latest, s) && Justified(wd.operatorDefault, tr, Saved(id, latest.uid, s))
  {
    SameInputsSameCheckpoint(wd.operatorDefault, obs, latest);
    RecordedState(wd, tr, obs, s.(phase := STARTED));
    if seen.Some? && FirstStateOk(wd, tr, id, obs, seen.value, s) {
      AbsentHasNoText(obs);
      hide ReadCheckpoint, IsValid, CheckpointText, ObsOk;
      assert CleanedForState(wd.operatorDefault, tr, id, latest.uid, s);
    } else {
      hide ReadCheckpoint, IsValid, FirstStateOk, ObsOk, CleanedForState, Recorded, CheckpointText;
    }
  }

  lemma AbsentHasNoText(c: Cluster)
    requires ReadCheckpoint(c).Absent?
    ensures CheckpointText(c).None?
  {
  }

  lemma SaveKeeps(wd: World, tr: seq<Event>, id: nat, obs: Cluster, seen: Option<Secret>, s: State, latest: Cluster, reply: Reply)
    requires SharedOk(wd, tr) && WorkerOk(wd, tr, id, SendPatch(obs, seen, Save(s), latest))
    ensures Keeps(wd, tr, id, StepPatch(wd, id, obs, Save(s), latest, reply))
  {
    hide SharedOk, ObsOk, SeenOk, GoalOk, Evolves, IsSnapshot, SameInputs, ReadCheckpoint, PutCluster, Justified, RecordFits, Encode;
    var t := StepPatch(wd, id, obs, Save(s), latest, reply);
    if t.events == [] {
      OnlyKeeps(wd, tr, id, t.worker);
    } else {
      LockedIsStored(wd, latest);
      SaveFits(wd, tr, id, obs, seen, s, latest);
      RecordKeepsShared(wd, tr, latest, s, id);
    }
  }

  // ---------- every step ----------

  lemma StepKeeps(wd: World, tr: seq<Event>, id: nat, w: Worker, reply: Reply)
    requires SharedOk(wd, tr) && WorkerOk(wd, tr, id, w) && !w.Done?
    ensures Keeps(wd, tr, id, Step(wd, id, w, reply))
  {
    hide SharedOk, WorkerOk, Keeps, StepRead, StepVerify, StepCredentialDelete, StepSecretDelete, StepPatch, StepAdopt;
    if IsRead(w) {
      if reply.Normal? {
        StepReadOk(wd, tr, id, w);
        OnlyKeeps(wd, tr, id, StepRead(wd, w));
      } else {
        DoneOk(wd, tr, id);
        OnlyKeeps(wd, tr, id, Done(Retry));
      }
    } else {
      match w
      case Verify(obs, secret, b) => VerifyKeeps(wd, tr, id, obs, secret, b, reply);
      case SendCredentialDelete(obs, seen, s, session) => CredentialDeleteKeeps(wd, tr, id, obs, seen, s, session, reply);
      case SendSecretDelete(obs, secret, s) => SecretDeleteKeeps(wd, tr, id, obs, secret, s, reply);
      case SendPatch(obs, seen, goal, latest) =>
        PatchKeeps(wd, tr, id, obs, seen, goal, latest, reply);
      case AdoptPatch(latest) => AdoptKeeps(wd, tr, id, latest, reply);
    }
  }

  lemma DoneOk(wd: World, tr: seq<Event>, id: nat)
    ensures WorkerOk(wd, tr, id, Done(Retry))
  {
  }

  lemma PatchKeeps(wd: World, tr: seq<Event>, id: nat, obs: Cluster, seen: Option<Secret>, goal: Goal, latest: Cluster, reply: Reply)
    requires SharedOk(wd, tr) && WorkerOk(wd, tr, id, SendPatch(obs, seen, goal, latest))
    ensures Keeps(wd, tr, id, StepPatch(wd, id, obs, goal, latest, reply))
  {
    PatchGoals(wd, tr, id, obs, seen, goal, latest);
    hide SharedOk, WorkerOk, Keeps, StepPatch;
    if goal.Save? {
      SaveKeeps(wd, tr, id, obs, seen, goal.state, latest, reply);
    } else {
      FinishKeeps(wd, tr, id, obs, seen, goal.sole, latest, reply);
    }
  }

  lemma PatchGoals(wd: World, tr: seq<Event>, id: nat, obs: Cluster, seen: Option<Secret>, goal: Goal, latest: Cluster)
    requires WorkerOk(wd, tr, id, SendPatch(obs, seen, goal, latest))
    ensures goal.Finish? || goal.Save?
  {
    hide ObsOk, SeenOk, GoalOk, SameInputs, IsSnapshot;
  }

  // ---------- every run ----------

  lemma EnvironmentKeeps(wd: World, wd': World, tr: seq<Event>)
    requires SharedOk(wd, tr) && EnvironmentStep(wd, wd')
    ensures SharedOk(wd', tr) && Evolves(wd, wd')
  {
    EnvironmentLeavesCheckpoints(wd, wd');
    hide StoreOk, RecordsAreStored, RecordsAgree, FinishedSecretsAreGone, TraceJustified, Evolves, CheckpointsUntouched,
         EnvironmentStep, Wellformed;
    EnvironmentEvolves(wd, wd');
    SharedStays(wd, wd', tr);
  }

  lemma EnvironmentLeavesCheckpoints(wd: World, wd': World)
    requires EnvironmentStep(wd, wd')
    ensures CheckpointsUntouched(wd, wd')
  {
  }

  /** The workers that do not move are undisturbed by the one that does. */
  lemma OthersStay(s: System, wd': World, tr': seq<Event>)
    requires Inv(s) && Evolves(s.world, wd') && Grows(s.trace, tr')
    ensures forall id :: id in s.workers ==> WorkerOk(wd', tr', id, s.workers[id])
  {
    hide Evolves, Grows, WorkerOk, StoreOk, RecordsAreStored, RecordsAgree, FinishedSecretsAreGone, TraceJustified, Wellformed;
    forall id | id in s.workers
      ensures WorkerOk(wd', tr', id, s.workers[id])
    {
      WorkerStays(s.world, wd', s.trace, tr', id, s.workers[id]);
    }
  }

  lemma WorksKeepsInv(s: System, s': System, id: nat, reply: Reply)
    requires Inv(s) && Works(s, s', id, reply)
    ensures Inv(s') && Evolves(s.world, s'.world)
  {
    hide SharedOk, WorkerOk, Evolves, Grows, Step;
    StepKeeps(s.world, s.trace, id, s.workers[id], reply);
    OthersStay(s, s'.world, s'.trace);
  }

  lemma NextKeepsInv(s: System, s': System)
    requires Inv(s) && Next(s, s')
    ensures Inv(s') && Evolves(s.world, s'.world) && s.trace <= s'.trace
  {
    hide SharedOk, Evolves, EnvironmentStep, Step;
    EvolvesReflexively(s.world);
    if EnvironmentMoves(s, s') {
      EnvironmentKeeps(s.world, s'.world, s.trace);
      OthersStay(s, s'.world, s'.trace);
    } else if name :| Starts(s, s', name) {
      hide WorkerOk;
      StartOk(s.world, s.trace, s.nextID, name);
    } else if id :| Crashes(s, s', id) {
      hide WorkerOk;
    } else {
      var id, reply :| Works(s, s', id, reply);
      hide WorkerOk;
      WorksKeepsInv(s, s', id, reply);
    }
  }

  lemma StartOk(wd: World, tr: seq<Event>, id: nat, name: string)
    ensures WorkerOk(wd, tr, id, Start(name))
  {
  }

  lemma InitialInv(s: System)
    requires Initial(s)
    ensures Inv(s)
  {
    forall n | n in s.world.clusters
      ensures CheckpointOk(s.world, s.trace, s.world.clusters[n])
    {
      NoTextOk(s.world, s.trace, s.world.clusters[n]);
    }
    hide CheckpointOk;
  }

  /** Every state of every run satisfies the invariant: any interleaving of workers, edits by
      others, crashes, failures and lost responses. */
  lemma {:induction false} RunsAreSafe(run: seq<System>, i: nat)
    requires IsRun(run) && i < |run|
    ensures Inv(run[i])
  {
    if i == 0 {
      InitialInv(run[0]);
    } else {
      hide Inv, Initial, Next;
      RunsAreSafe(run, i - 1);
      assert Next(run[i - 1], run[i - 1 + 1]);
      NextKeepsInv(run[i - 1], run[i]);
    }
  }

  lemma WorkerIsOk(s: System, id: nat)
    requires Inv(s) && id in s.workers
    ensures SharedOk(s.world, s.trace) && WorkerOk(s.world, s.trace, id, s.workers[id])
  {
    hide SharedOk, WorkerOk;
  }
}
