/** Progress in a quiet environment: nobody else writes, every call is answered, OpenStack and
    the API server honour DELETEs at once. Then each reconcile of a deleting object lowers a
    rank, and its finalizer goes with the last one. */
module Progress {
  import opened Results
  import opened GoStrings
  import opened Credentials
  import opened Objects
  import opened Lifecycle
  import opened Checkpoint
  import opened Runner
  import opened RunnerSafety
  import opened Convergence
  import opened Protocol
  import opened Evolution
  import opened Invariants
  import opened Preservation
  import opened StepSafety
  import opened Execution

  // ---------- a quiet outside ----------

  const HONOURING: nat -> Answer := (_: nat) => Answer(Accepted, true)

  /** Nobody moves; reads and writes succeed. A reconcile that has to clean up does so in its
      fifth call, and one that has a credential to delete in its ninth, which is answered 204. */
  function Quiet(inv: Inventory, cleansUp: bool): Outside {
    Outside((_: nat, wd) => wd,
            (n: nat) => if cleansUp && n == 4 then Ran(inv, HONOURING) else if !cleansUp && n == 8 then Answered(None, true) else Normal)
  }

  /** The stored object is the one in hand, deleting, held by our finalizer alone, not paused. */
  ghost predicate Ripe(wd: World, c: Cluster) {
    && c.name in wd.clusters && wd.clusters[c.name] == c
    && c.deleting && c.finalizers == [FINALIZER] && !Paused(wd.owners, c)
  }

  lemma QuietRead(inv: Inventory, cleansUp: bool, id: nat, f: Frame, w: Worker)
    requires IsRead(w) && f.calls != (if cleansUp then 4 else 8)
    ensures Drive(Quiet(inv, cleansUp), id, f, w)
         == Drive(Quiet(inv, cleansUp), id, Frame(f.world, f.calls + 1, f.events), StepRead(f.world, w))
  {
    ReadStep(Quiet(inv, cleansUp), id, f, w);
    hide Drive, StepRead;
  }

  lemma QuietChecks(inv: Inventory, cleansUp: bool, id: nat, f: Frame, c: Cluster, seen: Option<Secret>, goal: Goal)
    requires Ripe(f.world, c) && seen == Find(f.world, c.identity.name) && (if cleansUp then f.calls > 4 else f.calls < 5 || f.calls > 8)
    ensures Drive(Quiet(inv, cleansUp), id, f, RecheckSecret(c, seen, goal))
         == Drive(Quiet(inv, cleansUp), id, Frame(f.world, f.calls + 3, f.events), AfterChecks(c, seen, goal, c))
  {
    hide Drive, Paused, OtherReferences, ClusterNameFor, VolumesPolicyFor;
    QuietRead(inv, cleansUp, id, f, RecheckSecret(c, seen, goal));
    QuietRead(inv, cleansUp, id, Frame(f.world, f.calls + 1, f.events), RecheckCluster(c, seen, goal));
    QuietRead(inv, cleansUp, id, Frame(f.world, f.calls + 2, f.events), RecheckPause(c, seen, goal, c));
  }

  /** The unopposed end of a reconcile that patches. */
  lemma QuietPatch(inv: Inventory, cleansUp: bool, id: nat, f: Frame, c: Cluster, seen: Option<Secret>, goal: Goal)
    requires Ripe(f.world, c) && seen == Find(f.world, c.identity.name) && (if cleansUp then f.calls > 4 else f.calls < 5 || f.calls > 8)
    requires goal.Finish? || goal.Save?
    ensures Drive(Quiet(inv, cleansUp), id, f, RecheckSecret(c, seen, goal)).0.world == PutCluster(f.world, Patched(c, goal, c))
  {
    hide Drive, PutCluster, Patched, Ripe, Quiet;
    QuietChecks(inv, cleansUp, id, f, c, seen, goal);
    QuietSend(inv, cleansUp, id, Frame(f.world, f.calls + 3, f.events), c, seen, goal);
  }

  lemma QuietSend(inv: Inventory, cleansUp: bool, id: nat, f: Frame, c: Cluster, seen: Option<Secret>, goal: Goal)
    requires Ripe(f.world, c) && (goal.Finish? || goal.Save?) && f.calls != (if cleansUp then 4 else 8)
    ensures Drive(Quiet(inv, cleansUp), id, f, SendPatch(c, seen, goal, c)).0.world == PutCluster(f.world, Patched(c, goal, c))
  {
    hide Drive, PutCluster, Patched, Paused, StepRead, StepVerify, StepCredentialDelete, StepSecretDelete, StepAdopt;
    var o, w := Quiet(inv, cleansUp), SendPatch(c, seen, goal, c);
    WriteStep(o, id, f, w);
    DoneDrives(o, id, NextFrame(o, id, f, w), if goal.Save? then Requeue else Idle);
  }

  lemma FinishedIsGone(wd: World, c: Cluster, sole: bool)
    requires Ripe(wd, c)
    ensures var wd' := PutCluster(wd, Patched(c, Finish(sole), c));
      wd'.clusters == wd.clusters - {c.name} && wd'.secrets == wd.secrets && wd'.credentials == wd.credentials
  {
    assert RemoveFinalizer(c.finalizers[1..]) == [];
    assert RemoveFinalizer(c.finalizers) == [];
    hide Paused, OtherReferences;
  }

  // ---------- the stages ----------

  /** The configured Secret opens a session whose binding can be recorded: it names the token's
      user and project, if it names any. */
  ghost predicate Usable(wd: World, c: Cluster) {
    && c.identity.name in wd.secrets
    && var secret := wd.secrets[c.identity.name];
       && secret.name == c.identity.name && secret.uid != "" && !secret.deleting && secret.finalizers == []
       && OpenSession(wd, c, secret).Some?
       && var b := OpenSession(wd, c, secret).value;
          ValidateBinding(b).Ok? && ConfigMatches(DescribeCredential(secret.clouds, SelectedCloud(c)).value, b)
  }

  /** The object passes the checks at the start of every reconcile. */
  ghost predicate Wellnamed(c: Cluster) {
    c.uid != "" && TrimSpace(ClusterNameFor(c)) != "" && c.identity.IsDirectSecret() && c.identity.name != ""
  }

  /** A reconcile of this object can do the next thing there is to do. */
  ghost predicate Settled(wd: World, c: Cluster) {
    && Ripe(wd, c) && Wellnamed(c) && !OtherReferences(wd, c)
    && match ReadCheckpoint(c)
       case Bad => false
       case Absent => CheckpointText(c).None? && Usable(wd, c)
       case Good(s) =>
         && BindingMatches(wd.operatorDefault, c, Find(wd, c.identity.name), s)
         && (s.phase == STARTED ==> Usable(wd, c) && OpenSession(wd, c, wd.secrets[c.identity.name]) == Some(s.cloud))
         && (s.phase == CONFIRMED && c.identity.name in wd.secrets ==>
               var secret := wd.secrets[c.identity.name];
               secret.name == c.identity.name && !secret.deleting && secret.finalizers == [])
  }

  ghost predicate DeletesCredential(wd: World, c: Cluster) {
    c.identity.name in wd.secrets && RequestsCredentialDeletion(wd.secrets[c.identity.name])
  }

  /** How many reconciles are still needed. */
  ghost function Remaining(wd: World, inv: Inventory, name: string): nat {
    if name !in wd.clusters then 0
    else
      var c := wd.clusters[name];
      match ReadCheckpoint(c)
      case Absent => PhaseCount(inv, RequestFor(wd, c)) + (if DeletesCredential(wd, c) then 4 else 1)
      case Good(s) => if s.phase == STARTED then 3 else if c.identity.name in wd.secrets then 2 else 1
      case Bad => 0
  }

  /** One undisturbed reconcile: the API server and the OpenStack project after it. */
  function Reconciled(wd: World, inv: Inventory, name: string, id: nat): (World, Inventory) {
    if name !in wd.clusters then (wd, inv)
    else
      var c := wd.clusters[name];
      var cleansUp := ReadCheckpoint(c).Absent?;
      (Drive(Quiet(inv, cleansUp), id, Frame(wd, 0, []), Start(name)).0.world,
       if cleansUp then RunSpec(RequestFor(wd, c), inv, HONOURING, 0).inv else inv)
  }

  // ---------- the beginning of every reconcile ----------

  lemma QuietStart(inv: Inventory, cleansUp: bool, id: nat, wd: World, c: Cluster)
    requires Settled(wd, c)
    ensures Drive(Quiet(inv, cleansUp), id, Frame(wd, 0, []), Start(c.name))
         == Drive(Quiet(inv, cleansUp), id, Frame(wd, 3, []), StepRead(wd, ReadSecret(c)))
  {
    hide Drive, Settled, Quiet, Paused, AfterPause, ReadCheckpoint;
    SettledBegins(wd, c);
    QuietRead(inv, cleansUp, id, Frame(wd, 0, []), Start(c.name));
    QuietRead(inv, cleansUp, id, Frame(wd, 1, []), CheckPause(c));
    hide StepRead;
    QuietRead(inv, cleansUp, id, Frame(wd, 2, []), ReadSecret(c));
  }

  lemma SettledBegins(wd: World, c: Cluster)
    requires Settled(wd, c)
    ensures c.name in wd.clusters && wd.clusters[c.name] == c && AfterPause(c) == ReadSecret(c) && !Paused(wd.owners, c)
  {
    hide Paused, OtherReferences, BindingMatches, Usable, TrimSpace, ClusterNameFor;
  }

  // ---------- the second phase: the credential is gone ----------

  lemma LastStage(wd: World, c: Cluster)
    requires Settled(wd, c) && ReadCheckpoint(c).Good? && ReadCheckpoint(c).state.phase == CONFIRMED && c.identity.name !in wd.secrets
    ensures Ripe(wd, c) && StepRead(wd, ReadSecret(c)) == RecheckSecret(c, None, Finish(true))
  {
    hide Paused, OtherReferences, BindingMatches, Usable, TrimSpace, ClusterNameFor, Read;
  }

  lemma LastReconcile(wd: World, inv: Inventory, c: Cluster, id: nat)
    requires Settled(wd, c) && ReadCheckpoint(c).Good? && ReadCheckpoint(c).state.phase == CONFIRMED && c.identity.name !in wd.secrets
    ensures Reconciled(wd, inv, c.name, id).0 == PutCluster(wd, Patched(c, Finish(true), c))
  {
    LastStage(wd, c);
    hide Drive, Settled, StepRead, ReadCheckpoint, PutCluster, Patched, Paused, OtherReferences;
    QuietStart(inv, false, id, wd, c);
    QuietPatch(inv, false, id, Frame(wd, 3, []), c, None, Finish(true));
  }

  lemma SecretStage(wd: World, c: Cluster)
    requires Settled(wd, c) && ReadCheckpoint(c).Good? && ReadCheckpoint(c).state.phase == CONFIRMED && c.identity.name in wd.secrets
    ensures var secret, s := wd.secrets[c.identity.name], ReadCheckpoint(c).state;
      && Ripe(wd, c) && !OtherReferences(wd, c) && secret.name == c.identity.name
      && StepRead(wd, ReadSecret(c)) == RecheckSecret(c, Some(secret), DeleteSecret(s))
  {
    hide Paused, OtherReferences, BindingMatches, Usable, TrimSpace, ClusterNameFor, Read;
  }

  lemma QuietSecretDelete(inv: Inventory, id: nat, f: Frame, c: Cluster, secret: Secret, s: State)
    requires secret.name in f.world.secrets && f.world.secrets[secret.name] == secret && f.calls != 8
    ensures Drive(Quiet(inv, false), id, f, SendSecretDelete(c, secret, s)).0.world == RemoveSecret(f.world, secret)
  {
    var o, w := Quiet(inv, false), SendSecretDelete(c, secret, s);
    hide Drive, RemoveSecret;
    WriteStep(o, id, f, w);
    DoneDrives(o, id, NextFrame(o, id, f, w), Requeue);
  }

  lemma SecretReconcile(wd: World, inv: Inventory, c: Cluster, id: nat)
    requires Settled(wd, c) && ReadCheckpoint(c).Good? && ReadCheckpoint(c).state.phase == CONFIRMED && c.identity.name in wd.secrets
    ensures Reconciled(wd, inv, c.name, id).0 == RemoveSecret(wd, wd.secrets[c.identity.name])
  {
    hide Drive, Settled, ReadCheckpoint, Ripe, RemoveSecret, StepRead, Quiet, OtherReferences;
    SecretStage(wd, c);
    SettledBegins(wd, c);
    var s, secret := ReadCheckpoint(c).state, wd.secrets[c.identity.name];
    QuietStart(inv, false, id, wd, c);
    QuietChecks(inv, false, id, Frame(wd, 3, []), c, Some(secret), DeleteSecret(s));
    QuietReferences(inv, id, Frame(wd, 6, []), c, Some(secret), DeleteSecret(s));
    QuietSecretDelete(inv, id, Frame(wd, 7, []), c, secret, s);
  }

  lemma QuietReferences(inv: Inventory, id: nat, f: Frame, c: Cluster, seen: Option<Secret>, goal: Goal)
    requires !OtherReferences(f.world, c) && f.calls != 8 && seen.Some? && (goal.DeleteCredential? || goal.DeleteSecret?)
    ensures Drive(Quiet(inv, false), id, f, RecheckReferences(c, seen, goal))
         == Drive(Quiet(inv, false), id, Frame(f.world, f.calls + 1, f.events),
                  if goal.DeleteCredential? then SendCredentialDelete(c, seen, goal.state, goal.session)
                  else SendSecretDelete(c, seen.value, goal.state))
  {
    hide Drive, Paused, OtherReferences;
    QuietRead(inv, false, id, f, RecheckReferences(c, seen, goal));
  }

  // ---------- the first phase ----------

  /** The world once the recorded credential is deleted. */
  function WithoutCredential(wd: World, s: State): World {
    wd.(credentials := wd.credentials - {KeyOf(s.cloud)})
  }

  lemma CredentialStage(wd: World, c: Cluster)
    requires Settled(wd, c) && ReadCheckpoint(c).Good? && ReadCheckpoint(c).state.phase == STARTED
    ensures var s := ReadCheckpoint(c).state;
      && Ripe(wd, c) && !OtherReferences(wd, c) && c.identity.name in wd.secrets
      && StepRead(wd, ReadSecret(c)) == Resume(c, wd.secrets[c.identity.name], s)
      && OpenSession(wd, c, wd.secrets[c.identity.name]) == Some(s.cloud)
  {
    hide Paused, OtherReferences, BindingMatches, TrimSpace, ClusterNameFor, Read, OpenSession, ValidateBinding, ConfigMatches,
         DescribeCredential;
  }

  lemma QuietCredentialDelete(inv: Inventory, id: nat, f: Frame, c: Cluster, seen: Option<Secret>, s: State)
    requires Ripe(f.world, c) && seen == Find(f.world, c.identity.name) && s.cloud.credentialID != "" && f.calls == 8
    ensures Drive(Quiet(inv, false), id, f, SendCredentialDelete(c, seen, s, s.cloud)).0.world
         == PutCluster(WithoutCredential(f.world, s), Patched(c, Save(s.(phase := CONFIRMED)), c))
  {
    var o, w := Quiet(inv, false), SendCredentialDelete(c, seen, s, s.cloud);
    var after := NextFrame(o, id, f, w);
    assert after.world == WithoutCredential(f.world, s);
    hide Drive, Patched, Ripe, PutCluster;
    WriteStep(o, id, f, w);
    StillRipe(f.world, after.world, c);
    QuietPatch(inv, false, id, after, c, seen, Save(s.(phase := CONFIRMED)));
  }

  lemma QuietResume(inv: Inventory, id: nat, f: Frame, c: Cluster, secret: Secret, s: State)
    requires Ripe(f.world, c) && OpenSession(f.world, c, secret) == Some(s.cloud) && f.calls != 8
    ensures Drive(Quiet(inv, false), id, f, Resume(c, secret, s))
         == Drive(Quiet(inv, false), id, Frame(f.world, f.calls + 1, f.events),
                  RecheckSecret(c, Some(secret), DeleteCredential(s, s.cloud)))
  {
    hide Drive, OpenSession, Ripe, Quiet;
    QuietRead(inv, false, id, f, Resume(c, secret, s));
  }

  lemma CredentialReconcile(wd: World, inv: Inventory, c: Cluster, id: nat)
    requires Settled(wd, c) && ReadCheckpoint(c).Good? && ReadCheckpoint(c).state.phase == STARTED
    ensures var s := ReadCheckpoint(c).state;
      Reconciled(wd, inv, c.name, id).0 == PutCluster(WithoutCredential(wd, s), WithRecord(c, s.(phase := CONFIRMED)))
  {
    hide Drive, Settled, ReadCheckpoint, Encode, Ripe, OpenSession, PutCluster, StepRead, Quiet, WithoutCredential;
    CredentialStage(wd, c);
    SettledBegins(wd, c);
    RecordedCredentialIDIsSet(c);
    QuietStart(inv, false, id, wd, c);
    QuietFirstPhase(inv, id, wd, c, wd.secrets[c.identity.name], ReadCheckpoint(c).state);
  }

  /** From the session of the first phase to its end. */
  lemma QuietFirstPhase(inv: Inventory, id: nat, wd: World, c: Cluster, secret: Secret, s: State)
    requires Ripe(wd, c) && !OtherReferences(wd, c) && Find(wd, c.identity.name) == Some(secret)
    requires OpenSession(wd, c, secret) == Some(s.cloud) && s.cloud.credentialID != ""
    ensures Drive(Quiet(inv, false), id, Frame(wd, 3, []), Resume(c, secret, s)).0.world
         == PutCluster(WithoutCredential(wd, s), Patched(c, Save(s.(phase := CONFIRMED)), c))
  {
    hide Drive, Ripe, OpenSession, PutCluster, Patched, Quiet, WithoutCredential, OtherReferences, Find;
    var goal := DeleteCredential(s, s.cloud);
    QuietResume(inv, id, Frame(wd, 3, []), c, secret, s);
    QuietChecks(inv, false, id, Frame(wd, 4, []), c, Some(secret), goal);
    QuietReferences(inv, id, Frame(wd, 7, []), c, Some(secret), goal);
    QuietCredentialDelete(inv, id, Frame(wd, 8, []), c, Some(secret), s);
  }

  lemma StillRipe(wd: World, wd': World, c: Cluster)
    requires Ripe(wd, c) && wd'.clusters == wd.clusters && wd'.owners == wd.owners
    ensures Ripe(wd', c)
  {
  }

  // ---------- before anything is recorded ----------

  lemma FirstStage(wd: World, c: Cluster)
    requires Settled(wd, c) && ReadCheckpoint(c).Absent?
    ensures Ripe(wd, c) && !OtherReferences(wd, c) && Usable(wd, c) && c.identity.name in wd.secrets
      && OpenSession(wd, c, wd.secrets[c.identity.name]).Some?
      && StepRead(wd, ReadSecret(c)) == Authenticate(c, wd.secrets[c.identity.name])
  {
    hide Paused, OtherReferences, BindingMatches, TrimSpace, ClusterNameFor, Read, OpenSession, ValidateBinding;
  }

  lemma QuietVerify(inv: Inventory, id: nat, wd: World, c: Cluster, secret: Secret, b: Binding)
    ensures var t := StepVerify(wd, id, c, secret, b, Ran(inv, HONOURING));
      && t.world == wd
      && Drive(Quiet(inv, true), id, Frame(wd, 4, []), Verify(c, secret, b)) == Drive(Quiet(inv, true), id, Frame(wd, 5, t.events), t.worker)
  {
    var t := StepVerify(wd, id, c, secret, b, Ran(inv, HONOURING));
    assert [] + t.events == t.events;
    hide Drive, RunSpec, AfterCleanup;
    WriteStep(Quiet(inv, true), id, Frame(wd, 4, []), Verify(c, secret, b));
  }

  lemma QuietSession(inv: Inventory, id: nat, wd: World, c: Cluster, secret: Secret)
    requires OpenSession(wd, c, secret).Some?
    ensures Drive(Quiet(inv, true), id, Frame(wd, 3, []), Authenticate(c, secret))
         == Drive(Quiet(inv, true), id, Frame(wd, 4, []), Verify(c, secret, OpenSession(wd, c, secret).value))
  {
    hide Drive, OpenSession, Quiet;
    QuietRead(inv, true, id, Frame(wd, 3, []), Authenticate(c, secret));
  }

  /** Up to and including the cleanup. */
  lemma QuietCleanup(wd: World, inv: Inventory, c: Cluster, id: nat)
    requires Settled(wd, c) && ReadCheckpoint(c).Absent?
    ensures var secret := wd.secrets[c.identity.name];
      && OpenSession(wd, c, secret).Some?
      && var t := StepVerify(wd, id, c, secret, OpenSession(wd, c, secret).value, Ran(inv, HONOURING));
         Drive(Quiet(inv, true), id, Frame(wd, 0, []), Start(c.name)) == Drive(Quiet(inv, true), id, Frame(wd, 5, t.events), t.worker)
         && t.world == wd
  {
    FirstStage(wd, c);
    hide Drive, Settled, ReadCheckpoint, Ripe, OpenSession, ValidateBinding, ConfigMatches, DescribeCredential, StepVerify, StepRead,
         Quiet;
    var secret := wd.secrets[c.identity.name];
    QuietStart(inv, true, id, wd, c);
    QuietSession(inv, id, wd, c, secret);
    QuietVerify(inv, id, wd, c, secret, OpenSession(wd, c, secret).value);
  }

  /** What the cleanup of one reconcile comes to against a cloud that honours DELETEs. */
  lemma HonouredVerify(wd: World, inv: Inventory, c: Cluster, id: nat, secret: Secret, b: Binding)
    requires Ready(inv, RequestFor(wd, c))
    ensures var t, e := StepVerify(wd, id, c, secret, b, Ran(inv, HONOURING)), RunSpec(RequestFor(wd, c), inv, HONOURING, 0);
      && (PhaseCount(inv, RequestFor(wd, c)) > 0 ==>
            && t.worker == Done(Requeue)
            && exists k :: IsCurrentPhase(k, inv, RequestFor(wd, c)) && e.inv == CleanKind(k, inv, ClusterNameFor(c)))
      && (PhaseCount(inv, RequestFor(wd, c)) == 0 ==>
            t.worker == AfterCleanup(wd, c, secret, b) && t.events == [Cleaned(id, c, secret, b, inv)] && e.inv == inv)
  {
    hide RunSpec, Ready, AfterCleanup, IsCurrentPhase, CleanKind, PhaseCount;
    HonouredRun(RequestFor(wd, c), inv, HONOURING, 0);
  }

  /** While something is left to delete, a reconcile deletes the current kind and waits. */
  lemma WaitingReconcile(wd: World, inv: Inventory, c: Cluster, id: nat)
    requires Settled(wd, c) && ReadCheckpoint(c).Absent? && Ready(inv, RequestFor(wd, c)) && PhaseCount(inv, RequestFor(wd, c)) > 0
    ensures var (wd', inv') := Reconciled(wd, inv, c.name, id);
      wd' == wd && exists k :: IsCurrentPhase(k, inv, RequestFor(wd, c)) && inv' == CleanKind(k, inv, ClusterNameFor(c))
  {
    hide Drive, Settled, ReadCheckpoint, OpenSession, RunSpec, Ready, Quiet, IsCurrentPhase, CleanKind, PhaseCount, StepVerify, Usable,
         StepRead, Ripe;
    SettledBegins(wd, c);
    FirstStage(wd, c);
    QuietCleanup(wd, inv, c, id);
    var secret := wd.secrets[c.identity.name];
    var b := OpenSession(wd, c, secret).value;
    HonouredVerify(wd, inv, c, id, secret, b);
    var t := StepVerify(wd, id, c, secret, b, Ran(inv, HONOURING));
    DoneDrives(Quiet(inv, true), id, Frame(wd, 5, t.events), Requeue);
  }

  /** The reconcile whose cleanup is complete goes on with what AfterCleanup decides. */
  lemma CompleteReconcile(wd: World, inv: Inventory, c: Cluster, id: nat)
    requires Settled(wd, c) && ReadCheckpoint(c).Absent? && Ready(inv, RequestFor(wd, c)) && PhaseCount(inv, RequestFor(wd, c)) == 0
    ensures OpenSession(wd, c, wd.secrets[c.identity.name]).Some?
    ensures var secret := wd.secrets[c.identity.name];
      var b := OpenSession(wd, c, secret).value;
      Reconciled(wd, inv, c.name, id) ==
        (Drive(Quiet(inv, true), id, Frame(wd, 5, [Cleaned(id, c, secret, b, inv)]), AfterCleanup(wd, c, secret, b)).0.world, inv)
  {
    hide Drive, Settled, ReadCheckpoint, OpenSession, RunSpec, Ready, AfterCleanup, Quiet, PhaseCount, StepVerify, Usable,
         StepRead, Ripe;
    SettledBegins(wd, c);
    FirstStage(wd, c);
    QuietCleanup(wd, inv, c, id);
    var secret := wd.secrets[c.identity.name];
    HonouredVerify(wd, inv, c, id, secret, OpenSession(wd, c, secret).value);
  }

  lemma KeepingReconcile(wd: World, inv: Inventory, c: Cluster, id: nat)
    requires Settled(wd, c) && ReadCheckpoint(c).Absent? && Ready(inv, RequestFor(wd, c)) && PhaseCount(inv, RequestFor(wd, c)) == 0
    requires !DeletesCredential(wd, c)
    ensures Reconciled(wd, inv, c.name, id) == (PutCluster(wd, Patched(c, Finish(false), c)), inv)
  {
    CompleteReconcile(wd, inv, c, id);
    FirstStage(wd, c);
    hide Drive, Settled, ReadCheckpoint, OpenSession, Ready, Quiet, PhaseCount, Ripe, Patched, PutCluster, RequestsCredentialDeletion,
         FirstState, BindingMatches, ValidateBinding, ConfigMatches, DescribeCredential;
    var secret := wd.secrets[c.identity.name];
    var b := OpenSession(wd, c, secret).value;
    QuietPatch(inv, true, id, Frame(wd, 5, [Cleaned(id, c, secret, b, inv)]), c, Some(secret), Finish(false));
  }

  /** The first record fits the inputs it is made from, so the controller accepts its own. */
  lemma FirstStateMatches(wd: World, c: Cluster)
    requires Usable(wd, c) && DeletesCredential(wd, c)
    ensures var secret := wd.secrets[c.identity.name];
      var b := OpenSession(wd, c, secret).value;
      BindingMatches(wd.operatorDefault, c, Some(secret), FirstState(wd, c, secret, b)) && b.cloudName == SelectedCloud(c)
  {
    hide ValidateBinding;
  }

  lemma RecordingBegins(wd: World, c: Cluster)
    requires Usable(wd, c) && c.uid != "" && DeletesCredential(wd, c)
    ensures var secret := wd.secrets[c.identity.name];
      var b := OpenSession(wd, c, secret).value;
      AfterCleanup(wd, c, secret, b) == CheckReferences(c, secret, FirstState(wd, c, secret, b))
  {
    FirstStateMatches(wd, c);
    hide ReadCheckpoint, OpenSession, ValidateBinding, BindingMatches, ConfigMatches, DescribeCredential, RequestsCredentialDeletion;
  }

  lemma UnsharedRecords(wd: World, c: Cluster, secret: Secret, s: State)
    requires !OtherReferences(wd, c)
    ensures StepRead(wd, CheckReferences(c, secret, s)) == RecheckSecret(c, Some(secret), Save(s))
  {
    hide OtherReferences;
  }

  lemma RecordingReconcile(wd: World, inv: Inventory, c: Cluster, id: nat)
    requires Settled(wd, c) && ReadCheckpoint(c).Absent? && Ready(inv, RequestFor(wd, c)) && PhaseCount(inv, RequestFor(wd, c)) == 0
    requires DeletesCredential(wd, c)
    ensures var secret := wd.secrets[c.identity.name];
      Reconciled(wd, inv, c.name, id)
        == (PutCluster(wd, WithRecord(c, FirstState(wd, c, secret, OpenSession(wd, c, secret).value))), inv)
  {
    hide Drive, Settled, ReadCheckpoint, OpenSession, Ready, Quiet, PhaseCount, Ripe, Usable, PutCluster, RequestsCredentialDeletion,
         FirstState, AfterCleanup, StepRead, Encode, OtherReferences;
    CompleteReconcile(wd, inv, c, id);
    FirstStage(wd, c);
    SettledHasUID(wd, c);
    RecordingBegins(wd, c);
    var secret := wd.secrets[c.identity.name];
    var b := OpenSession(wd, c, secret).value;
    var s := FirstState(wd, c, secret, b);
    var f := Frame(wd, 5, [Cleaned(id, c, secret, b, inv)]);
    UnsharedRecords(wd, c, secret, s);
    QuietRead(inv, true, id, f, CheckReferences(c, secret, s));
    QuietPatch(inv, true, id, Frame(wd, 6, f.events), c, Some(secret), Save(s));
  }

  lemma SettledHasUID(wd: World, c: Cluster)
    requires Settled(wd, c)
    ensures c.uid != ""
  {
    hide ReadCheckpoint, Ripe, Usable, BindingMatches, TrimSpace;
  }
}
