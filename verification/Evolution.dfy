/** How stored objects change over time, and what an old snapshot still tells.

    `Evolves` relates two moments of a run; the environment and every worker respect it. Facts
    about snapshots are stable under it, which is what lets each worker be checked alone. */
module Evolution {
  import opened Results
  import opened Credentials
  import opened Objects
  import opened Checkpoint
  import opened Protocol

  /** The recorded phase only moves forward, and the record is otherwise frozen. */
  ghost predicate CheckpointAdvances(c: Cluster, c': Cluster) {
    || CheckpointText(c).None?
    || CheckpointText(c') == CheckpointText(c)
    || (ReadCheckpoint(c).Good? && ReadCheckpoint(c).state.phase == STARTED
        && CheckpointText(c') == Some(Encode(ReadCheckpoint(c).state.(phase := CONFIRMED))))
  }

  /** `c'` is a later version of the same object `c`. */
  ghost predicate Later(c: Cluster, c': Cluster) {
    && c'.uid == c.uid && c'.name == c.name
    && c.version <= c'.version && (c.version == c'.version ==> c' == c)
    && c.generation <= c'.generation && (c.generation == c'.generation ==> c'.identity == c.identity)
    && (c.deleting ==> c'.deleting)
    && CheckpointAdvances(c, c')
  }

  lemma CheckpointAdvancesTransitively(a: Cluster, b: Cluster, c: Cluster)
    requires CheckpointAdvances(a, b) && CheckpointAdvances(b, c)
    ensures CheckpointAdvances(a, c)
  {
    if CheckpointText(a).Some? && CheckpointText(b) != CheckpointText(a) {
      var confirmed := ReadCheckpoint(a).state.(phase := CONFIRMED);
      SelfAcceptance(confirmed);
    }
  }

  lemma LaterIsTransitive(a: Cluster, b: Cluster, c: Cluster)
    requires Later(a, b) && Later(b, c)
    ensures Later(a, c)
  {
    CheckpointAdvancesTransitively(a, b, c);
  }

  ghost predicate LaterSecret(s: Secret, s': Secret) {
    s'.uid == s.uid && s'.name == s.name && s.version <= s'.version && (s.version == s'.version ==> s' == s)
  }

  ghost predicate Wellformed(wd: World) {
    && UniqueClusters(wd) && UniqueSecrets(wd)
    && (forall n :: n in wd.clusters ==>
          wd.clusters[n].name == n && wd.clusters[n].version <= wd.clock && wd.clusters[n].uid in wd.clusterUIDs)
    && (forall n :: n in wd.secrets ==>
          && wd.secrets[n].name == n && wd.secrets[n].version <= wd.clock
          && wd.secrets[n].uid in wd.secretNames && wd.secretNames[wd.secrets[n].uid] == n)
  }

  /** Each stored object is new, or a later version of what its name held. */
  ghost predicate Evolves(wd: World, wd': World) {
    && wd'.operatorDefault == wd.operatorDefault && wd.clock <= wd'.clock && wd.clusterUIDs <= wd'.clusterUIDs
    && (forall u :: u in wd.secretNames ==> u in wd'.secretNames && wd'.secretNames[u] == wd.secretNames[u])
    && (forall n :: n in wd'.clusters ==>
          || (wd'.clusters[n].uid !in wd.clusterUIDs && wd'.clusters[n].version > wd.clock)
          || (n in wd.clusters && Later(wd.clusters[n], wd'.clusters[n])))
    && (forall n :: n in wd'.secrets ==>
          || (wd'.secrets[n].uid !in wd.secretNames && wd'.secrets[n].version > wd.clock)
          || (n in wd.secrets && LaterSecret(wd.secrets[n], wd'.secrets[n])))
  }

  lemma EnvironmentEvolves(wd: World, wd': World)
    requires Wellformed(wd) && EnvironmentStep(wd, wd')
    ensures Wellformed(wd') && Evolves(wd, wd')
  {
  }

  // ---------- snapshots ----------

  /** What a worker once read about a cluster: the object stored there now is a later version of
      it, or a younger object. */
  ghost predicate IsSnapshot(wd: World, c: Cluster) {
    && c.uid in wd.clusterUIDs && c.version <= wd.clock
    && (forall n :: n in wd.clusters && wd.clusters[n].uid == c.uid ==> Later(c, wd.clusters[n]))
    && (c.name in wd.clusters ==>
          c.version <= wd.clusters[c.name].version && (c.version == wd.clusters[c.name].version ==> wd.clusters[c.name] == c))
  }

  ghost predicate IsSecretSnapshot(wd: World, s: Secret) {
    && s.uid in wd.secretNames && wd.secretNames[s.uid] == s.name && s.version <= wd.clock
    && (forall n :: n in wd.secrets && wd.secrets[n].uid == s.uid ==> LaterSecret(s, wd.secrets[n]))
  }

  lemma StoredIsSnapshot(wd: World, n: string)
    requires Wellformed(wd) && n in wd.clusters
    ensures IsSnapshot(wd, wd.clusters[n])
  {
  }

  lemma StoredSecretIsSnapshot(wd: World, n: string)
    requires Wellformed(wd) && n in wd.secrets
    ensures IsSecretSnapshot(wd, wd.secrets[n])
  {
  }

  lemma SnapshotsPersist(wd: World, wd': World, c: Cluster)
    requires Wellformed(wd) && Evolves(wd, wd') && IsSnapshot(wd, c)
    ensures IsSnapshot(wd', c)
  {
    forall n | n in wd'.clusters && wd'.clusters[n].uid == c.uid
      ensures Later(c, wd'.clusters[n])
    {
      LaterIsTransitive(c, wd.clusters[n], wd'.clusters[n]);
    }
  }

  lemma SecretSnapshotsPersist(wd: World, wd': World, s: Secret)
    requires Wellformed(wd) && Evolves(wd, wd') && IsSecretSnapshot(wd, s)
    ensures IsSecretSnapshot(wd', s)
  {
  }

  /** A Secret UID that was used and is stored nowhere. */
  ghost predicate SecretIsGone(wd: World, uid: string) {
    uid in wd.secretNames && forall n :: n in wd.secrets ==> wd.secrets[n].uid != uid
  }

  /** It never comes back: UIDs are not reused. */
  lemma GoneSecretsStayGone(wd: World, wd': World, uid: string)
    requires Evolves(wd, wd') && SecretIsGone(wd, uid)
    ensures SecretIsGone(wd', uid)
  {
  }

  // ---------- the controller's own commits ----------

  lemma LaterIsReflexive(c: Cluster)
    ensures Later(c, c)
  {
  }

  lemma StoredNextVersion(wd: World, c: Cluster)
    requires c.name in wd.clusters && wd.clusters[c.name].version <= wd.clock
    requires var stored := wd.clusters[c.name];
      && c.uid == stored.uid && c.name == stored.name && c.generation == stored.generation && c.identity == stored.identity
      && c.deleting == stored.deleting && CheckpointAdvances(stored, c)
    ensures Later(wd.clusters[c.name], c.(version := wd.clock + 1))
  {
    assert CheckpointText(c.(version := wd.clock + 1)) == CheckpointText(c);
  }

  /** The Secrets of two worlds are the same, and the clusters have later versions. */
  lemma LaterClustersEvolve(wd: World, wd': World)
    requires Wellformed(wd) && wd' == wd.(clock := wd.clock + 1, clusters := wd'.clusters)
    requires forall n :: n in wd'.clusters ==>
      n in wd.clusters && wd'.clusters[n].version <= wd'.clock && Later(wd.clusters[n], wd'.clusters[n])
    ensures Wellformed(wd') && Evolves(wd, wd')
  {
    forall n | n in wd'.clusters
      ensures wd'.clusters[n].uid == wd.clusters[n].uid && wd'.clusters[n].name == wd.clusters[n].name
    {
    }
    hide Later, CheckpointAdvances;
  }

  lemma PutClusterEvolves(wd: World, c: Cluster)
    requires Wellformed(wd) && c.name in wd.clusters
    requires var stored := wd.clusters[c.name];
      && c.uid == stored.uid && c.generation == stored.generation && c.identity == stored.identity && c.deleting == stored.deleting
      && CheckpointAdvances(stored, c)
    ensures Wellformed(PutCluster(wd, c)) && Evolves(wd, PutCluster(wd, c))
  {
    hide Later, CheckpointAdvances, Evolves;
    StoredNextVersion(wd, c);
    var wd' := PutCluster(wd, c);
    forall n | n in wd'.clusters
      ensures n in wd.clusters && wd'.clusters[n].version <= wd'.clock && Later(wd.clusters[n], wd'.clusters[n])
    {
      LaterIsReflexive(wd.clusters[n]);
    }
    LaterClustersEvolve(wd, wd');
  }

  /** The clusters of two worlds are the same, and the Secrets have later versions. */
  lemma LaterSecretsEvolve(wd: World, wd': World)
    requires Wellformed(wd) && wd.clock <= wd'.clock && wd' == wd.(clock := wd'.clock, secrets := wd'.secrets)
    requires forall n :: n in wd'.secrets ==>
      n in wd.secrets && wd'.secrets[n].version <= wd'.clock && LaterSecret(wd.secrets[n], wd'.secrets[n])
    ensures Wellformed(wd') && Evolves(wd, wd')
  {
    forall n | n in wd.clusters
      ensures Later(wd.clusters[n], wd.clusters[n])
    {
      LaterIsReflexive(wd.clusters[n]);
    }
    hide Later, CheckpointAdvances;
  }

  lemma RemoveSecretEvolves(wd: World, n: string)
    requires Wellformed(wd) && n in wd.secrets
    ensures Wellformed(RemoveSecret(wd, wd.secrets[n])) && Evolves(wd, RemoveSecret(wd, wd.secrets[n]))
  {
    hide Evolves;
    var wd' := RemoveSecret(wd, wd.secrets[n]);
    assert wd.secrets[n].name == n;
    LaterSecretsEvolve(wd, wd');
  }
}
