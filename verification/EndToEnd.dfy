/** The end-to-end result: how many undisturbed reconciles a deleting object needs, and what is
    left when its finalizer is gone. */
module EndToEnd {
  import opened Results
  import opened GoStrings
  import opened Credentials
  import opened Objects
  import opened Lifecycle
  import opened Checkpoint
  import opened Runner
  import opened RunnerSafety
  import opened Convergence
  import opened Protocol
  import opened Evolution
  import opened Invariants
  import opened StepSafety
  import opened Execution
  import opened Progress

  /** The object is ready for its next reconcile; once something is recorded, OpenStack is clean. */
  ghost predicate Underway(wd: World, inv: Inventory, c: Cluster) {
    && Settled(wd, c) && Ready(inv, RequestFor(wd, c))
    && (ReadCheckpoint(c).Good? ==> PhaseCount(inv, RequestFor(wd, c)) == 0)
  }

  /** The Secrets there will be in the end: the identity Secret goes, unless its policy keeps it. */
  ghost function FinalSecrets(wd: World, c: Cluster): map<string, Secret> {
    if ReadCheckpoint(c).Absent? && !DeletesCredential(wd, c) then wd.secrets else wd.secrets - {c.identity.name}
  }

  /** The credentials there will be in the end: all but the one bound to this deletion. */
  ghost function FinalCredentials(wd: World, c: Cluster): map<CredentialKey, Token> {
    match ReadCheckpoint(c)
    case Bad => wd.credentials
    case Good(s) => if s.phase == STARTED then wd.credentials - {KeyOf(s.cloud)} else wd.credentials
    case Absent =>
      if !DeletesCredential(wd, c) || OpenSession(wd, c, wd.secrets[c.identity.name]).None? then wd.credentials
      else wd.credentials - {KeyOf(OpenSession(wd, c, wd.secrets[c.identity.name]).value)}
  }

  // ---------- the object after a record ----------

  /** Everything but checkpoint and version is as before, as far as the controller looks. */
  ghost predicate SameObject(operatorDefault: string, c: Cluster, c': Cluster) {
    && c'.name == c.name && c'.uid == c.uid && c'.identity == c.identity && c'.deleting == c.deleting
    && c'.finalizers == c.finalizers && c'.owners == c.owners && c'.labels == c.labels
    && ClusterNameFor(c') == ClusterNameFor(c) && VolumesPolicyFor(operatorDefault, c') == VolumesPolicyFor(operatorDefault, c)
    && (HasPauseAnnotation(c'.annotations) <==> HasPauseAnnotation(c.annotations))
  }

  /** The stored object once `s` is recorded on it. */
  function Recording(wd: World, c: Cluster, s: State): Cluster {
    WithRecord(c, s).(version := wd.clock + 1)
  }

  lemma RecordingIsSame(wd: World, c: Cluster, s: State)
    requires Ripe(wd, c) && IsValid(s)
    ensures var wd', c' := PutCluster(wd, WithRecord(c, s)), Recording(wd, c, s);
      && SameObject(wd.operatorDefault, c, c')
      && wd' == wd.(clock := wd.clock + 1, clusters := wd.clusters[c.name := c'])
      && ReadCheckpoint(c') == Good(s) && CheckpointText(c') == Some(Encode(s))
  {
    hide IsValid, Encode, ReadCheckpoint, Read, Paused, OtherReferences;
    RecordReads(c, s);
    SameAnnotationsReadTheSame(WithRecord(c, s), Recording(wd, c, s));
  }

  lemma SameObjectIsUnshared(wd: World, wd': World, c: Cluster, c': Cluster)
    requires c.name in wd.clusters && wd.clusters[c.name] == c && c'.uid == c.uid && c'.identity == c.identity
    requires wd'.clusters == wd.clusters[c.name := c'] && !OtherReferences(wd, c)
    ensures !OtherReferences(wd', c')
  {
  }

  lemma SameObjectIsRipe(wd: World, wd': World, c: Cluster, c': Cluster)
    requires Ripe(wd, c) && SameObject(wd.operatorDefault, c, c')
    requires wd'.clusters == wd.clusters[c.name := c'] && wd'.owners == wd.owners
    ensures Ripe(wd', c')
  {
    hide ClusterNameFor, VolumesPolicyFor;
    assert Paused(wd'.owners, c') <==> Paused(wd.owners, c);
  }

  lemma SameObjectMatches(operatorDefault: string, c: Cluster, c': Cluster, seen: Option<Secret>, s: State)
    requires SameObject(operatorDefault, c, c')
    ensures BindingMatches(operatorDefault, c, seen, s) ==> BindingMatches(operatorDefault, c', seen, s)
  {
    hide ClusterNameFor, VolumesPolicyFor, DescribeCredential, ConfigMatches;
  }

  lemma SameSession(wd: World, wd': World, c: Cluster, c': Cluster, secret: Secret)
    requires c'.identity == c.identity && wd'.credentials == wd.credentials
    ensures OpenSession(wd', c', secret) == OpenSession(wd, c, secret)
  {
    hide DescribeCredential;
  }

  /** The request, and with it everything about OpenStack, stays the same. */
  lemma SameObjectSameRequest(wd: World, wd': World, c: Cluster, c': Cluster)
    requires SameObject(wd.operatorDefault, c, c') && wd'.operatorDefault == wd.operatorDefault
    ensures RequestFor(wd', c') == RequestFor(wd, c)
  {
  }

  // ---------- each stage settles into the next ----------

  /** One reconcile further. */
  ghost predicate Advanced(wd: World, inv: Inventory, c: Cluster, wd': World, inv': Inventory) {
    var req := RequestFor(wd, c);
    && Remaining(wd, inv, c.name) >= 1
    && Remaining(wd', inv', c.name) == Remaining(wd, inv, c.name) - 1
    && Remainder(inv', req) == Remainder(inv, req)
    && wd'.clusters - {c.name} == wd.clusters - {c.name}
    && if Remaining(wd, inv, c.name) > 1 then
         && c.name in wd'.clusters && wd'.clusters[c.name].name == c.name && wd'.clusters[c.name].identity == c.identity
         && Underway(wd', inv', wd'.clusters[c.name])
         && RequestFor(wd', wd'.clusters[c.name]) == req
         && FinalSecrets(wd', wd'.clusters[c.name]) == FinalSecrets(wd, c)
         && FinalCredentials(wd', wd'.clusters[c.name]) == FinalCredentials(wd, c)
       else
         && c.name !in wd'.clusters && inv' == Remainder(inv, req)
         && wd'.secrets == FinalSecrets(wd, c) && wd'.credentials == FinalCredentials(wd, c)
  }

  lemma RemainingBefore(wd: World, inv: Inventory, c: Cluster)
    requires c.name in wd.clusters && wd.clusters[c.name] == c
    ensures Remaining(wd, inv, c.name) ==
      match ReadCheckpoint(c)
      case Absent => PhaseCount(inv, RequestFor(wd, c)) + (if DeletesCredential(wd, c) then 4 else 1)
      case Good(s) => if s.phase == STARTED then 3 else if c.identity.name in wd.secrets then 2 else 1
      case Bad => 0
  {
    hide PhaseCount, RequestFor, DeletesCredential, ReadCheckpoint;
  }

  lemma WaitingAdvances(wd: World, inv: Inventory, c: Cluster, id: nat)
    requires Underway(wd, inv, c) && ReadCheckpoint(c).Absent? && PhaseCount(inv, RequestFor(wd, c)) > 0
    ensures var (wd', inv') := Reconciled(wd, inv, c.name, id); Advanced(wd, inv, c, wd', inv')
  {
    hide Settled, Reconciled, ReadCheckpoint, DeletesCredential, OpenSession, Ready, PhaseCount, Remainder, CleanKind, IsCurrentPhase,
         FinalSecrets, FinalCredentials, Remaining, VolumesPolicyFor, ClusterNameFor;
    SettledBegins(wd, c);
    RemainingBefore(wd, inv, c);
    WaitingReconcile(wd, inv, c, id);
    var (wd', inv') := Reconciled(wd, inv, c.name, id);
    var k :| IsCurrentPhase(k, inv, RequestFor(wd, c)) && inv' == CleanKind(k, inv, ClusterNameFor(c));
    CurrentHasWork(k, inv, RequestFor(wd, c));
    CleaningAdvances(k, inv, RequestFor(wd, c));
    RemainingBefore(wd, inv', c);
  }

  lemma CurrentHasWork(k: Kind, inv: Inventory, req: Request)
    requires IsCurrentPhase(k, inv, req)
    ensures HasWork(k, inv, req)
  {
  }

  lemma CleanStaysClean(inv: Inventory, req: Request)
    requires PhaseCount(inv, req) == 0
    ensures Remainder(inv, req) == inv
  {
    NoPhaseLeft(inv, req);
    NothingLeftToClean(inv, req);
  }

  lemma FinishAdvances(wd: World, inv: Inventory, c: Cluster, sole: bool)
    requires Underway(wd, inv, c) && Remaining(wd, inv, c.name) == 1
    ensures Advanced(wd, inv, c, PutCluster(wd, Patched(c, Finish(sole), c)), inv)
  {
    hide Underway, PhaseCount, Remainder, PutCluster, Patched, Ripe, FinalSecrets, FinalCredentials, RequestFor, Remaining;
    LastStageFacts(wd, inv, c);
    FinishedIsGone(wd, c, sole);
    CleanStaysClean(inv, RequestFor(wd, c));
    var wd' := PutCluster(wd, Patched(c, Finish(sole), c));
    assert wd'.clusters - {c.name} == wd.clusters - {c.name};
    NothingRemains(wd', inv, c.name);
  }

  lemma NothingRemains(wd: World, inv: Inventory, name: string)
    requires name !in wd.clusters
    ensures Remaining(wd, inv, name) == 0
  {
  }

  lemma LastStageFacts(wd: World, inv: Inventory, c: Cluster)
    requires Underway(wd, inv, c) && Remaining(wd, inv, c.name) == 1
    ensures Ripe(wd, c) && PhaseCount(inv, RequestFor(wd, c)) == 0
    ensures FinalSecrets(wd, c) == wd.secrets && FinalCredentials(wd, c) == wd.credentials
  {
    hide Ripe, Settled, Ready, ReadCheckpoint, OpenSession, PhaseCount, Remaining, RequestFor, DeletesCredential;
    SettledBegins(wd, c);
    SettledIsRipe(wd, c);
    RemainingBefore(wd, inv, c);
    SettledIsNotBad(wd, c);
    if c.identity.name !in wd.secrets {
      assert wd.secrets - {c.identity.name} == wd.secrets;
    }
  }

  /** What recording `s` takes to be settled: its binding holds, and the credential can be used,
      or is gone and the Secret can be deleted. */
  ghost predicate CanRecord(wd: World, c: Cluster, s: State) {
    && Ripe(wd, c) && Wellnamed(c) && !OtherReferences(wd, c) && IsValid(s) && c.identity.name in wd.secrets
    && var secret := wd.secrets[c.identity.name];
       && BindingMatches(wd.operatorDefault, c, Some(secret), s)
       && (s.phase == STARTED ==> Usable(wd, c) && OpenSession(wd, c, secret) == Some(s.cloud))
       && (s.phase == CONFIRMED ==> secret.name == c.identity.name && !secret.deleting && secret.finalizers == [])
  }

  lemma RecordSettles(wd: World, inv: Inventory, c: Cluster, s: State)
    requires CanRecord(wd, c, s) && Ready(inv, RequestFor(wd, c)) && PhaseCount(inv, RequestFor(wd, c)) == 0
    ensures var wd', c' := PutCluster(wd, WithRecord(c, s)), Recording(wd, c, s);
      && wd'.clusters == wd.clusters[c.name := c'] && wd'.secrets == wd.secrets && wd'.credentials == wd.credentials
      && ReadCheckpoint(c') == Good(s) && c'.identity == c.identity && c'.name == c.name
      && RequestFor(wd', c') == RequestFor(wd, c) && Underway(wd', inv, c')
  {
    RecordingIsSame(wd, c, s);
    var wd', c' := PutCluster(wd, WithRecord(c, s)), Recording(wd, c, s);
    hide PutCluster, Recording, ReadCheckpoint, OpenSession, IsValid, BindingMatches, Ready, PhaseCount, TrimSpace, Encode;
    assert SameObject(wd.operatorDefault, c, c');
    SameObjectIsRipe(wd, wd', c, c');
    SameObjectIsUnshared(wd, wd', c, c');
    SameObjectMatches(wd.operatorDefault, c, c', Find(wd, c.identity.name), s);
    SameSession(wd, wd', c, c', wd.secrets[c.identity.name]);
    SameObjectSameRequest(wd, wd', c, c');
  }

  /** Recording is progress, whatever the phase, if the ranks and the final stores fit. */
  lemma RecordingAdvances(wd: World, inv: Inventory, c: Cluster, base: World, s: State)
    requires Underway(wd, inv, c) && PhaseCount(inv, RequestFor(wd, c)) == 0
    requires CanRecord(base, c, s) && base == wd.(credentials := base.credentials)
    requires Remaining(wd, inv, c.name) == if s.phase == STARTED then 4 else 3
    requires s.phase == STARTED || s.phase == CONFIRMED
    requires FinalSecrets(wd, c) == wd.secrets - {c.identity.name}
    requires FinalCredentials(wd, c) == if s.phase == STARTED then base.credentials - {KeyOf(s.cloud)} else base.credentials
    ensures Advanced(wd, inv, c, PutCluster(base, WithRecord(c, s)), inv)
  {
    hide Underway, CanRecord, PutCluster, WithRecord, Recording, ReadCheckpoint, DeletesCredential, OpenSession, PhaseCount, Remainder,
         Remaining, RequestFor, Ready, BindingMatches, KeyOf, FinalSecrets, FinalCredentials;
    var wd', c' := PutCluster(base, WithRecord(c, s)), Recording(base, c, s);
    SameWorldSameRequest(wd, base, c);
    UnderwayIsReady(wd, inv, c);
    SecretCanBeFound(base, c, s);
    RecordSettles(base, inv, c, s);
    CleanStaysClean(inv, RequestFor(wd, c));
    RecordedRemaining(wd', inv, c', s);
    RecordedFinals(wd', c', s);
    assert wd'.clusters - {c.name} == wd.clusters - {c.name};
  }

  lemma SameWorldSameRequest(wd: World, base: World, c: Cluster)
    requires base == wd.(credentials := base.credentials)
    ensures RequestFor(base, c) == RequestFor(wd, c)
  {
  }

  lemma SecretCanBeFound(wd: World, c: Cluster, s: State)
    requires CanRecord(wd, c, s)
    ensures c.identity.name in wd.secrets
  {
    hide Ripe, Wellnamed, IsValid, BindingMatches, Usable;
  }

  lemma RecordedRemaining(wd: World, inv: Inventory, c: Cluster, s: State)
    requires c.name in wd.clusters && wd.clusters[c.name] == c && ReadCheckpoint(c) == Good(s)
    ensures Remaining(wd, inv, c.name) == if s.phase == STARTED then 3 else if c.identity.name in wd.secrets then 2 else 1
  {
    hide ReadCheckpoint, PhaseCount, RequestFor, DeletesCredential;
  }

  lemma RecordedFinals(wd: World, c: Cluster, s: State)
    requires ReadCheckpoint(c) == Good(s)
    ensures FinalSecrets(wd, c) == wd.secrets - {c.identity.name}
    ensures FinalCredentials(wd, c) == if s.phase == STARTED then wd.credentials - {KeyOf(s.cloud)} else wd.credentials
  {
    hide ReadCheckpoint, DeletesCredential, OpenSession, KeyOf;
  }

  lemma UnderwayIsReady(wd: World, inv: Inventory, c: Cluster)
    requires Underway(wd, inv, c)
    ensures Ready(inv, RequestFor(wd, c)) && c.name in wd.clusters && wd.clusters[c.name] == c
  {
    hide Ready, ReadCheckpoint, Usable, BindingMatches, Wellnamed, PhaseCount;
  }

  lemma FirstStateCanBeRecorded(wd: World, c: Cluster)
    requires Settled(wd, c) && ReadCheckpoint(c).Absent? && DeletesCredential(wd, c)
    ensures Usable(wd, c)
    ensures CanRecord(wd, c, FirstState(wd, c, wd.secrets[c.identity.name], OpenSession(wd, c, wd.secrets[c.identity.name]).value))
  {
    FirstStage(wd, c);
    FirstStateMatches(wd, c);
    var secret := wd.secrets[c.identity.name];
    var b := OpenSession(wd, c, secret).value;
    UsableFirstStateIsValid(wd, c);
    SettledIsWellnamed(wd, c);
    hide Settled, ReadCheckpoint, BindingMatches, IsValid, Wellnamed, Ripe, OpenSession, ValidateBinding, ConfigMatches;
  }

  lemma SettledIsWellnamed(wd: World, c: Cluster)
    requires Settled(wd, c)
    ensures Wellnamed(c) && c.uid != "" && ClusterNameFor(c) != ""
  {
    hide Ripe, Usable, BindingMatches, ReadCheckpoint;
  }

  lemma UsableFirstStateIsValid(wd: World, c: Cluster)
    requires Settled(wd, c) && Usable(wd, c)
    ensures var secret := wd.secrets[c.identity.name];
      IsValid(FirstState(wd, c, secret, OpenSession(wd, c, secret).value))
  {
    SettledIsWellnamed(wd, c);
    hide Settled, ValidateBinding, OpenSession, TrimSpace, ConfigMatches, DescribeCredential;
  }

  lemma FirstFinals(wd: World, c: Cluster)
    requires Settled(wd, c) && ReadCheckpoint(c).Absent? && DeletesCredential(wd, c)
    ensures var secret := wd.secrets[c.identity.name];
      && OpenSession(wd, c, secret).Some?
      && FinalSecrets(wd, c) == wd.secrets - {c.identity.name}
      && FinalCredentials(wd, c) == wd.credentials - {KeyOf(OpenSession(wd, c, secret).value)}
  {
    hide Settled, ReadCheckpoint, OpenSession, KeyOf, Usable, Ripe, StepRead, OtherReferences, RequestsCredentialDeletion;
    FirstStage(wd, c);
  }

  lemma FirstRecordAdvances(wd: World, inv: Inventory, c: Cluster, id: nat)
    requires Underway(wd, inv, c) && ReadCheckpoint(c).Absent? && PhaseCount(inv, RequestFor(wd, c)) == 0 && DeletesCredential(wd, c)
    ensures var (wd', inv') := Reconciled(wd, inv, c.name, id); Advanced(wd, inv, c, wd', inv')
  {
    hide Settled, Reconciled, OpenSession, PhaseCount, Remaining, RequestFor, Ready, DeletesCredential, CanRecord, Advanced, ReadCheckpoint,
         PutCluster, WithRecord, FinalSecrets, FinalCredentials, KeyOf, Usable, Ripe, StepRead, ClusterNameFor, VolumesPolicyFor;
    SecretIsFound(wd, c);
    FirstStateCanBeRecorded(wd, c);
    FirstFinals(wd, c);
    SettledBegins(wd, c);
    RecordingReconcile(wd, inv, c, id);
    RemainingBefore(wd, inv, c);
    var secret := wd.secrets[c.identity.name];
    var s := FirstState(wd, c, secret, OpenSession(wd, c, secret).value);
    assert wd == wd.(credentials := wd.credentials);
    RecordingAdvances(wd, inv, c, wd, s);
  }

  lemma SecretIsFound(wd: World, c: Cluster)
    requires DeletesCredential(wd, c)
    ensures c.identity.name in wd.secrets
  {
  }

  lemma ConfirmedCanBeRecorded(wd: World, c: Cluster)
    requires Settled(wd, c) && ReadCheckpoint(c).Good? && ReadCheckpoint(c).state.phase == STARTED
    ensures var s := ReadCheckpoint(c).state; CanRecord(WithoutCredential(wd, s), c, s.(phase := CONFIRMED))
  {
    var s := ReadCheckpoint(c).state;
    GoodIsValid(c, s);
    ConfirmedIsValid(s);
    StillRipe(wd, WithoutCredential(wd, s), c);
    SettledIsWellnamed(wd, c);
    hide Ripe, Wellnamed, IsValid, Read, OpenSession, ValidateBinding, ClusterNameFor, VolumesPolicyFor, ConfigMatches, DescribeCredential;
  }

  lemma CredentialAdvances(wd: World, inv: Inventory, c: Cluster, id: nat)
    requires Underway(wd, inv, c) && ReadCheckpoint(c).Good? && ReadCheckpoint(c).state.phase == STARTED
    ensures var (wd', inv') := Reconciled(wd, inv, c.name, id); Advanced(wd, inv, c, wd', inv')
  {
    hide Settled, OpenSession, PhaseCount, Remaining, RequestFor, Ready, DeletesCredential, CanRecord, Advanced, ReadCheckpoint,
         PutCluster, WithRecord, Drive;
    var s := ReadCheckpoint(c).state;
    SettledBegins(wd, c);
    ConfirmedCanBeRecorded(wd, c);
    CredentialReconcile(wd, inv, c, id);
    RemainingBefore(wd, inv, c);
    RecordingAdvances(wd, inv, c, WithoutCredential(wd, s), s.(phase := CONFIRMED));
  }

  /** The Secret is deleted: the object is settled for its last reconcile. */
  lemma WithoutSecretSettles(wd: World, c: Cluster)
    requires Settled(wd, c) && ReadCheckpoint(c).Good? && ReadCheckpoint(c).state.phase == CONFIRMED && c.identity.name in wd.secrets
    ensures var wd' := RemoveSecret(wd, wd.secrets[c.identity.name]);
      wd' == wd.(secrets := wd.secrets - {c.identity.name}) && Settled(wd', c)
  {
    var wd' := RemoveSecret(wd, wd.secrets[c.identity.name]);
    assert wd' == wd.(secrets := wd.secrets - {c.identity.name}) by {
      hide Ripe, Wellnamed, ReadCheckpoint, BindingMatches, Usable;
    }
    SettledIsRipe(wd, c);
    StillRipe(wd, wd', c);
    hide Ripe, Wellnamed, Read, Usable, ClusterNameFor, VolumesPolicyFor, SecretMatches, RemoveSecret;
  }

  lemma SettledIsRipe(wd: World, c: Cluster)
    requires Settled(wd, c)
    ensures Ripe(wd, c)
  {
    hide Ripe, Wellnamed, ReadCheckpoint, Usable, BindingMatches;
  }

  lemma SecretAdvances(wd: World, inv: Inventory, c: Cluster, id: nat)
    requires Underway(wd, inv, c)
    requires ReadCheckpoint(c).Good? && ReadCheckpoint(c).state.phase == CONFIRMED && c.identity.name in wd.secrets
    ensures var (wd', inv') := Reconciled(wd, inv, c.name, id); Advanced(wd, inv, c, wd', inv')
  {
    hide Settled, OpenSession, PhaseCount, Remaining, Ready, DeletesCredential, ReadCheckpoint, RemoveSecret, Drive, Remainder, ClusterNameFor,
         VolumesPolicyFor;
    SettledBegins(wd, c);
    SecretReconcile(wd, inv, c, id);
    WithoutSecretSettles(wd, c);
    var wd' := RemoveSecret(wd, wd.secrets[c.identity.name]);
    RemainingBefore(wd, inv, c);
    RemainingBefore(wd', inv, c);
    assert wd'.secrets - {c.identity.name} == wd.secrets - {c.identity.name};
  }

  /** Every undisturbed reconcile lowers the rank by one, towards the same final state. */
  lemma ReconcileAdvances(wd: World, inv: Inventory, c: Cluster, id: nat)
    requires Underway(wd, inv, c)
    ensures var (wd', inv') := Reconciled(wd, inv, c.name, id); Advanced(wd, inv, c, wd', inv')
  {
    hide Settled, PhaseCount, Ready, DeletesCredential, ReadCheckpoint, Reconciled, Advanced, RequestFor, Remaining;
    SettledBegins(wd, c);
    SettledIsNotBad(wd, c);
    RemainingBefore(wd, inv, c);
    if ReadCheckpoint(c).Absent? {
      if PhaseCount(inv, RequestFor(wd, c)) > 0 {
        WaitingAdvances(wd, inv, c, id);
      } else if DeletesCredential(wd, c) {
        FirstRecordAdvances(wd, inv, c, id);
      } else {
        KeepingReconcile(wd, inv, c, id);
        FinishAdvances(wd, inv, c, false);
      }
    } else if ReadCheckpoint(c).state.phase == STARTED {
      CredentialAdvances(wd, inv, c, id);
    } else if c.identity.name in wd.secrets {
      SecretAdvances(wd, inv, c, id);
    } else {
      LastReconcile(wd, inv, c, id);
      GoodKeepsInventory(wd, inv, c, id);
      FinishAdvances(wd, inv, c, true);
    }
  }

  lemma SettledIsNotBad(wd: World, c: Cluster)
    requires Settled(wd, c)
    ensures !ReadCheckpoint(c).Bad?
    ensures ReadCheckpoint(c).Good? ==> ReadCheckpoint(c).state.phase == STARTED || ReadCheckpoint(c).state.phase == CONFIRMED
  {
    if ReadCheckpoint(c).Good? {
      GoodIsValid(c, ReadCheckpoint(c).state);
    }
    hide Ripe, Wellnamed, Usable, BindingMatches, Read, ValidateBinding;
  }

  lemma GoodKeepsInventory(wd: World, inv: Inventory, c: Cluster, id: nat)
    requires c.name in wd.clusters && wd.clusters[c.name] == c && ReadCheckpoint(c).Good?
    ensures Reconciled(wd, inv, c.name, id).1 == inv
  {
    hide Drive, ReadCheckpoint;
  }

  // ---------- the whole deletion ----------

  /** `n` undisturbed reconciles in a row. */
  function Repeated(wd: World, inv: Inventory, name: string, id: nat, n: nat): (World, Inventory)
    decreases n
  {
    hide Reconciled;
    if n == 0 then (wd, inv)
    else
      var (wd', inv') := Reconciled(wd, inv, name, id);
      Repeated(wd', inv', name, id + 1, n - 1)
  }

  /** End to end: after exactly `Remaining` reconciles, at most nine, or seven when volumes are
      kept, the object is gone and was there before. OpenStack has lost exactly what the cluster
      owned, its bound credential is gone, its identity Secret is gone unless the policy keeps
      it, and every other object is as it was. */
  lemma {:induction false} FinalizerGoes(wd: World, inv: Inventory, c: Cluster, id: nat)
    requires Underway(wd, inv, c)
    ensures var n, req := Remaining(wd, inv, c.name), RequestFor(wd, c);
      var (wd', inv') := Repeated(wd, inv, c.name, id, n);
      && 1 <= n <= (if req.deleteVolumes then 9 else 7)
      && wd'.clusters == wd.clusters - {c.name} && inv' == Remainder(inv, req)
      && wd'.secrets == FinalSecrets(wd, c) && wd'.credentials == FinalCredentials(wd, c)
      && forall m: nat :: m < n ==> c.name in Repeated(wd, inv, c.name, id, m).0.clusters
    decreases Remaining(wd, inv, c.name)
  {
    hide Underway, PhaseCount, Reconciled, RequestFor, Remaining, FinalSecrets, FinalCredentials, Remainder;
    UnderwayIsReady(wd, inv, c);
    AtMostNine(wd, inv, c);
    ReconcileAdvances(wd, inv, c, id);
    var n := Remaining(wd, inv, c.name);
    var (wd1, inv1) := Reconciled(wd, inv, c.name, id);
    if n > 1 {
      FinalizerGoes(wd1, inv1, wd1.clusters[c.name], id + 1);
    } else {
      assert wd1.clusters - {c.name} == wd1.clusters;
    }
    forall m: nat | m < n
      ensures c.name in Repeated(wd, inv, c.name, id, m).0.clusters
    {
      if m > 0 {
        assert c.name in Repeated(wd1, inv1, c.name, id + 1, m - 1).0.clusters;
      }
    }
  }

  lemma AtMostNine(wd: World, inv: Inventory, c: Cluster)
    requires c.name in wd.clusters && wd.clusters[c.name] == c
    ensures Remaining(wd, inv, c.name) <= if RequestFor(wd, c).deleteVolumes then 9 else 7
  {
    hide RequestFor, DeletesCredential, ReadCheckpoint, HasWork;
    var n := PhaseCount(inv, RequestFor(wd, c));
  }

  // ---------- the same as a run of the protocol ----------

  /** Nobody moving is something others may do. */
  lemma QuietIsLawful(inv: Inventory, cleansUp: bool)
    ensures Lawful(Quiet(inv, cleansUp))
  {
    forall wd | Wellformed(wd)
      ensures EnvironmentStep(wd, wd)
    {
      StandingStill(wd);
    }
    hide Wellformed, EnvironmentStep;
  }

  lemma StandingStill(wd: World)
    requires Wellformed(wd)
    ensures EnvironmentStep(wd, wd)
  {
    hide CheckpointText;
  }

  lemma ReconciledFollowsRun(run: seq<System>, inv: Inventory, name: string) returns (run': seq<System>)
    requires IsRun(run) && name in Last(run).world.clusters
    ensures run <= run' && IsRun(run') && Last(run').nextID == Last(run).nextID + 1
    ensures Last(run').world == Reconciled(Last(run).world, inv, name, Last(run).nextID).0
  {
    assert run != [];
    hide IsRun, Drive, Lawful, ReadCheckpoint;
    var s := Last(run);
    var o := Quiet(inv, ReadCheckpoint(s.world.clusters[name]).Absent?);
    QuietIsLawful(inv, ReadCheckpoint(s.world.clusters[name]).Absent?);
    ReconcileExtendsRun(o, name, run);
    var after := Drive(o, s.nextID, Frame(s.world, 0, []), Start(name)).0;
    run' :| run <= run' && IsRun(run') && Last(run').world == after.world && Last(run').trace == s.trace + after.events
      && Last(run').nextID == s.nextID + 1;
  }

  /** The object is there before each of the next `n` reconciles. */
  ghost predicate ThereUntil(wd: World, inv: Inventory, name: string, id: nat, n: nat) {
    forall m: nat :: m < n ==> name in Repeated(wd, inv, name, id, m).0.clusters
  }

  lemma ThereNext(wd: World, inv: Inventory, name: string, id: nat, n: nat)
    requires n > 0 && ThereUntil(wd, inv, name, id, n)
    ensures var (wd', inv') := Reconciled(wd, inv, name, id); name in wd.clusters && ThereUntil(wd', inv', name, id + 1, n - 1)
  {
    hide Reconciled;
    var (wd', inv') := Reconciled(wd, inv, name, id);
    assert name in Repeated(wd, inv, name, id, 0).0.clusters;
    var less, next := n - 1, id + 1;
    forall m: nat | m < less
      ensures name in Repeated(wd', inv', name, next, m).0.clusters
    {
      assert name in Repeated(wd, inv, name, id, m + 1).0.clusters;
    }
  }

  lemma RepeatedUnrolls(wd: World, inv: Inventory, name: string, id: nat, n: nat)
    ensures Repeated(wd, inv, name, id, n) ==
      if n == 0 then (wd, inv) else Repeated(Reconciled(wd, inv, name, id).0, Reconciled(wd, inv, name, id).1, name, id + 1, n - 1)
  {
    hide Reconciled;
  }

  lemma {:induction false} RepeatedFollowsRun(run: seq<System>, inv: Inventory, name: string, n: nat) returns (run': seq<System>)
    requires IsRun(run) && ThereUntil(Last(run).world, inv, name, Last(run).nextID, n)
    ensures run <= run' && IsRun(run')
    ensures Last(run').world == Repeated(Last(run).world, inv, name, Last(run).nextID, n).0
    decreases n
  {
    hide *;
    RunIsNotEmpty(run);
    var wd, id := Last(run).world, Last(run).nextID;
    RepeatedUnrolls(wd, inv, name, id, n);
    if n == 0 {
      run' := run;
    } else {
      ThereNext(wd, inv, name, id, n);
      var run1 := ReconciledFollowsRun(run, inv, name);
      run' := RepeatedFollowsRun(run1, Reconciled(wd, inv, name, id).1, name, n - 1);
    }
  }

  /** From every reachable state in which the deletion is underway, some run of the protocol
      finishes it, with exactly the final state that `FinalizerGoes` gives. */
  lemma FinalizerGoesInRun(run: seq<System>, inv: Inventory, c: Cluster)
    requires IsRun(run) && Underway(Last(run).world, inv, c)
    ensures exists run' ::
      (run <= run' && IsRun(run') && Last(run').world.clusters == Last(run).world.clusters - {c.name}
       && Last(run').world.secrets == FinalSecrets(Last(run).world, c)
       && Last(run').world.credentials == FinalCredentials(Last(run).world, c))
  {
    assert run != [];
    hide IsRun, Underway, Remaining, FinalSecrets, FinalCredentials, RequestFor, Remainder, Repeated;
    var wd, id := Last(run).world, Last(run).nextID;
    FinalizerGoes(wd, inv, c, id);
    var run' := RepeatedFollowsRun(run, inv, c.name, Remaining(wd, inv, c.name));
  }
}
