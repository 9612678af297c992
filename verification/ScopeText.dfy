/** Which name, policy, cloud and credential a reconcile works for, read off the fields of the
    objects, and what that means for what is left when the finalizer goes. */
module ScopeText {
  import opened Results
  import opened GoStrings
  import opened Credentials
  import opened Objects
  import opened Checkpoint
  import opened Ownership
  import opened Runner
  import opened RunnerSafety
  import opened OwnedText
  import opened Protocol
  import opened ProtocolTheorems
  import Authority

  // ---------- the effective scope ----------

  /** The label names the cluster, even if it is empty; without it the object's own name does. */
  function EffectiveName(c: Cluster): string {
    if "cluster.x-k8s.io/cluster-name" in c.labels then c.labels["cluster.x-k8s.io/cluster-name"] else c.name
  }

  /** Volumes go if the annotation says so, or, without one, the operator's default or no default. */
  predicate VolumesGo(operatorDefault: string, c: Cluster) {
    if "janitor.capi.stackhpc.com/volumes-policy" in c.annotations
    then c.annotations["janitor.capi.stackhpc.com/volumes-policy"] == "delete"
    else operatorDefault == "" || operatorDefault == "delete"
  }

  function EffectiveCloud(c: Cluster): string {
    if c.identity.cloudName == "" then "openstack" else c.identity.cloudName
  }

  lemma ScopeIsEffective(operatorDefault: string, c: Cluster)
    ensures ClusterNameFor(c) == EffectiveName(c) && SelectedCloud(c) == EffectiveCloud(c)
    ensures VolumesPolicyFor(operatorDefault, c) == if VolumesGo(operatorDefault, c) then "delete" else "keep"
  {
  }

  /** The cleanup of an object is asked for its effective name, and for volumes only if they go. */
  lemma RequestIsEffective(wd: World, c: Cluster)
    ensures RequestFor(wd, c) == Request(EffectiveName(c), VolumesGo(wd.operatorDefault, c))
  {
    ScopeIsEffective(wd.operatorDefault, c);
    hide ClusterNameFor, VolumesPolicyFor, EffectiveName, VolumesGo;
  }

  /** Kept volumes are kept: such a cleanup sends no DELETE for a volume or a snapshot. */
  lemma KeptVolumesSurvive(req: Request, inv: Inventory, answers: nat -> Answer, n: nat, id: string)
    requires !req.deleteVolumes
    ensures Delete(Volumes, id) !in RunSpec(req, inv, answers, n).calls && Delete(Snapshots, id) !in RunSpec(req, inv, answers, n).calls
  {
    RunIsSafe(req, inv, answers, n);
    hide RunSpec, Selected;
  }

  // ---------- nothing of the cluster's is left ----------

  /** By text and metadata: none of the listed resources is one that OCCM or CSI made for this
      cluster, except floating IPs that are attached, load balancers that carry a reserved tag of
      another cluster, and volumes that are marked or kept by policy. */
  ghost predicate NoneByText(inv: Inventory, name: string, volumesGo: bool) {
    && (forall r, service :: r in inv.floatingIPs && r.FloatingIP? && r.attachedPortID == "" ==>
          r.description != "Floating IP for Kubernetes external service" + service + ("from cluster " + name))
    && (forall r, rest :: r in inv.loadBalancers && r.LoadBalancer? && (forall tag :: tag in r.tags ==> !("kube_service_" <= tag)) ==>
          r.name != "kube_service_" + name + "_" + rest)
    && (forall r, service :: r in inv.securityGroups && r.SecurityGroup? ==>
          r.description != "Security Group for" + service + ("Service LoadBalancer in cluster " + name))
    && (volumesGo ==>
          && (forall r :: r in inv.snapshots && r.Snapshot? ==> !NamedIn(r.metadata, name))
          && (forall r :: r in inv.volumes && r.Volume? && NamedIn(r.metadata, name) ==> MarkedIn(r.metadata)))
  }

  predicate NamedIn(metadata: map<string, string>, name: string) {
    "cinder.csi.openstack.org/cluster" in metadata && metadata["cinder.csi.openstack.org/cluster"] == name
  }

  predicate MarkedIn(metadata: map<string, string>) {
    "janitor.capi.azimuth-cloud.com/keep" in metadata && metadata["janitor.capi.azimuth-cloud.com/keep"] == "true"
  }

  lemma DrainedFloatingIPs(inv: Inventory, req: Request, r: Resource, service: string)
    requires Drained(inv, req) && r in inv.floatingIPs && r.FloatingIP? && r.attachedPortID == ""
    ensures r.description != "Floating IP for Kubernetes external service" + service + ("from cluster " + req.clusterName)
  {
    hide Preflight, HasPrefix, HasSuffix;
    if r.description == "Floating IP for Kubernetes external service" + service + ("from cluster " + req.clusterName) {
      OwnFloatingIPMatches(r, service, req.clusterName);
      UnattachedIsNeverProtected(r, inv, req.clusterName);
      assert false;
    }
  }

  lemma DrainedLoadBalancers(inv: Inventory, req: Request, r: Resource, rest: string)
    requires Drained(inv, req) && r in inv.loadBalancers && r.LoadBalancer?
    requires forall tag :: tag in r.tags ==> !("kube_service_" <= tag)
    ensures r.name != "kube_service_" + req.clusterName + "_" + rest
  {
    hide Preflight, Selected;
    if r.name == "kube_service_" + req.clusterName + "_" + rest {
      OwnLoadBalancerIsSelected(r, rest, inv, req.clusterName);
      assert false;
    }
  }

  lemma DrainedSecurityGroups(inv: Inventory, req: Request, r: Resource, service: string)
    requires Drained(inv, req) && r in inv.securityGroups && r.SecurityGroup?
    ensures r.description != "Security Group for" + service + ("Service LoadBalancer in cluster " + req.clusterName)
  {
    hide Preflight, Selected;
    if r.description == "Security Group for" + service + ("Service LoadBalancer in cluster " + req.clusterName) {
      OwnSecurityGroupIsSelected(r, service, inv, req.clusterName);
      assert false;
    }
  }

  lemma DrainedVolumes(inv: Inventory, req: Request, kind: Kind, r: Resource)
    requires Drained(inv, req) && req.deleteVolumes && r in inv.Of(kind) && ((kind.Volumes? && r.Volume?) || (kind.Snapshots? && r.Snapshot?))
    ensures NamedIn(r.metadata, req.clusterName) ==> kind.Volumes? && MarkedIn(r.metadata)
  {
    hide Preflight, Selected;
    if NamedIn(r.metadata, req.clusterName) && !(kind.Volumes? && MarkedIn(r.metadata)) {
      OwnMetadataIsSelected(kind, r, inv, req.clusterName);
      assert false;
    }
  }

  lemma DrainedLeavesNone(inv: Inventory, req: Request)
    requires Drained(inv, req)
    ensures NoneByText(inv, req.clusterName, req.deleteVolumes)
  {
    hide Drained, NamedIn, MarkedIn;
    forall r, service | r in inv.floatingIPs && r.FloatingIP? && r.attachedPortID == ""
      ensures r.description != "Floating IP for Kubernetes external service" + service + ("from cluster " + req.clusterName)
    {
      DrainedFloatingIPs(inv, req, r, service);
    }
    forall r, rest | r in inv.loadBalancers && r.LoadBalancer? && (forall tag :: tag in r.tags ==> !("kube_service_" <= tag))
      ensures r.name != "kube_service_" + req.clusterName + "_" + rest
    {
      DrainedLoadBalancers(inv, req, r, rest);
    }
    forall r, service | r in inv.securityGroups && r.SecurityGroup?
      ensures r.description != "Security Group for" + service + ("Service LoadBalancer in cluster " + req.clusterName)
    {
      DrainedSecurityGroups(inv, req, r, service);
    }
    if req.deleteVolumes {
      forall r | r in inv.snapshots && r.Snapshot?
        ensures !NamedIn(r.metadata, req.clusterName)
      {
        DrainedVolumes(inv, req, Snapshots, r);
      }
      forall r | r in inv.volumes && r.Volume? && NamedIn(r.metadata, req.clusterName)
        ensures MarkedIn(r.metadata)
      {
        DrainedVolumes(inv, req, Volumes, r);
      }
    }
  }

  /** The composition in the resources' own words, in every run: behind each removal stands an
      earlier cleanup of this object in whose inventories nothing is left that OCCM or CSI made for
      the name the object carries as its finalizer goes. */
  lemma FinalizerRemovalMeansNoneByText(run: seq<System>, i: nat, k: nat)
    requires IsRun(run) && i < |run| && k < |run[i].trace| && run[i].trace[k].FinalizerRemoved?
    ensures var tr, op, c := run[i].trace, run[i].world.operatorDefault, run[i].trace[k].cluster;
      exists a: nat :: a < k && tr[a].Cleaned? && tr[a].obs.uid == c.uid
        && NoneByText(tr[a].inv, EffectiveName(c), VolumesGo(op, c))
  {
    hide IsRun, ReadCheckpoint, Drained, NoneByText, EffectiveName, VolumesGo, ClusterNameFor, VolumesPolicyFor;
    FinalizerRemovalMeansNothingLeft(run, i, k);
    var tr, op, c := run[i].trace, run[i].world.operatorDefault, run[i].trace[k].cluster;
    var a: nat :| a < k && NothingLeftFor(op, tr[a], c)
      && (ReadCheckpoint(c).Absent? ==> tr[a].id == tr[k].id && tr[a].obs.generation == c.generation);
    DrainedLeavesNone(tr[a].inv, Request(ClusterNameFor(c), VolumesPolicyFor(op, c) == POLICY_DELETE));
    ScopeIsEffective(op, c);
  }

  // ---------- the cloud and its credential ----------

  /** The endpoint type by its names in a clouds.yaml. */
  predicate EndpointIs(text: string, endpoint: string) {
    || (endpoint == "internal" && (text == "internal" || text == "internalURL"))
    || (endpoint == "admin" && (text == "admin" || text == "adminURL"))
    || (endpoint == "public" && text != "internal" && text != "internalURL" && text != "admin" && text != "adminURL")
  }

  /** The entry the configuration was read from, and every field of it. */
  ghost predicate ReadsEntry(clouds: Clouds, cloud: string, config: Config) {
    && clouds.Some? && cloud in clouds.value
    && var entry := clouds.value[cloud];
       && entry.hasAuth && entry.authType == "v3applicationcredential" && HasInk(entry.credentialID) && HasInk(entry.credentialSecret)
       && Authority.NormalizeAuthority(entry.authURL) == Ok(config.authority)
       && config.projectID == entry.projectID && config.userID == entry.userID && config.region == entry.region
       && EndpointIs(entry.endpointType, config.endpoint) && config.cloudName == cloud && config.credentialID == entry.credentialID
  }

  lemma DescribedIff(clouds: Clouds, cloud: string, config: Config)
    requires cloud != ""
    ensures DescribeCredential(clouds, cloud) == Ok(config) <==> ReadsEntry(clouds, cloud, config)
  {
    hide Authority.NormalizeAuthority, TrimSpace, HasInk;
    if clouds.Some? && cloud in clouds.value {
      TrimmedIffInk(clouds.value[cloud].credentialID);
      TrimmedIffInk(clouds.value[cloud].credentialSecret);
    }
  }

  /** A session is opened exactly with an application credential of the effective cloud that still
      exists, and bound to its configuration with the user and project of its token. */
  lemma SessionIff(wd: World, c: Cluster, secret: Secret, b: Binding)
    ensures OpenSession(wd, c, secret) == Some(b)
       <==> exists config :: ReadsEntry(secret.clouds, EffectiveCloud(c), config) && (config.authority, config.credentialID) in wd.credentials
              && var token := wd.credentials[(config.authority, config.credentialID)];
                 token.projectID != "" && token.userID != "" && b == Binding(config.authority, token.projectID, token.userID, config.region,
                                                                             config.endpoint, config.cloudName, config.credentialID)
  {
    ScopeIsEffective("", c);
    hide DescribeCredential, ReadsEntry;
    forall config
      ensures DescribeCredential(secret.clouds, EffectiveCloud(c)) == Ok(config) <==> ReadsEntry(secret.clouds, EffectiveCloud(c), config)
    {
      DescribedIff(secret.clouds, EffectiveCloud(c), config);
    }
  }

  /** The binding check, field by field: the object's UID, name, Secret, cloud and policy, and the
      Secret's UID, policy and cloud entry are the recorded ones; a user or project the entry
      names is the recorded one too. */
  lemma BindingMatchesIff(operatorDefault: string, c: Cluster, secret: Secret, s: State)
    ensures BindingMatches(operatorDefault, c, Some(secret), s)
       <==> && c.uid == s.clusterUID && EffectiveName(c) == s.clusterName && c.identity.name == s.secretName
            && EffectiveCloud(c) == s.cloud.cloudName && s.volumesPolicy == (if VolumesGo(operatorDefault, c) then "delete" else "keep")
            && secret.uid == s.secretUID && "janitor.capi.stackhpc.com/credential-policy" in secret.annotations
            && secret.annotations["janitor.capi.stackhpc.com/credential-policy"] == s.credentialPolicy
            && exists config :: ReadsEntry(secret.clouds, EffectiveCloud(c), config) && Records(config, s.cloud)
  {
    ScopeIsEffective(operatorDefault, c);
    hide DescribeCredential, ReadsEntry, ClusterNameFor, VolumesPolicyFor, EffectiveName, VolumesGo, SelectedCloud;
    EffectiveCloudIsNamed(c);
    forall config
      ensures DescribeCredential(secret.clouds, EffectiveCloud(c)) == Ok(config) <==> ReadsEntry(secret.clouds, EffectiveCloud(c), config)
    {
      DescribedIff(secret.clouds, EffectiveCloud(c), config);
    }
  }

  lemma EffectiveCloudIsNamed(c: Cluster)
    ensures EffectiveCloud(c) != ""
  {
  }

  predicate Records(config: Config, b: Binding) {
    && config.authority == b.authority && config.region == b.region && config.endpoint == b.endpoint
    && config.cloudName == b.cloudName && config.credentialID == b.credentialID
    && (config.projectID == "" || config.projectID == b.projectID) && (config.userID == "" || config.userID == b.userID)
  }

  /** A Secret that is missing passes only in the second phase. */
  lemma MissingSecretMatchesIff(operatorDefault: string, c: Cluster, s: State)
    ensures BindingMatches(operatorDefault, c, None, s)
       <==> && c.uid == s.clusterUID && EffectiveName(c) == s.clusterName && c.identity.name == s.secretName
            && EffectiveCloud(c) == s.cloud.cloudName && s.volumesPolicy == (if VolumesGo(operatorDefault, c) then "delete" else "keep")
            && s.phase == "secretDeleteStarted"
  {
    ScopeIsEffective(operatorDefault, c);
    hide ClusterNameFor, VolumesPolicyFor, EffectiveName, VolumesGo, SelectedCloud;
  }

  /** The comparison in checkCleanupInputs, field by field. */
  lemma SameInputsIff(operatorDefault: string, obs: Cluster, latest: Cluster)
    ensures SameInputs(operatorDefault, obs, latest)
       <==> && latest.uid == obs.uid && latest.generation == obs.generation && EffectiveName(latest) == EffectiveName(obs)
            && (VolumesGo(operatorDefault, latest) <==> VolumesGo(operatorDefault, obs))
            && Get(latest.annotations, "janitor.capi.stackhpc.com/credential-cleanup")
               == Get(obs.annotations, "janitor.capi.stackhpc.com/credential-cleanup")
            && latest.deleting && "janitor.capi.stackhpc.com" in latest.finalizers
  {
    ScopeIsEffective(operatorDefault, obs);
    ScopeIsEffective(operatorDefault, latest);
    hide ClusterNameFor, VolumesPolicyFor, EffectiveName, VolumesGo;
  }
}
