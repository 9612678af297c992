/** What the ownership rule decides, read off the texts and metadata of the resources, and what it
    means for runs: another cluster's resources survive, a cluster's own are found. */
module OwnedText {
  import opened Results
  import opened GoStrings
  import opened Ownership
  import opened Runner
  import opened RunnerSafety

  // ---------- texts that end in a cluster's name ----------

  predicate OccursAt(s: string, marker: string, i: nat) {
    i + |marker| <= |s| && s[i..i + |marker|] == marker
  }

  ghost predicate Contains(s: string, marker: string) {
    exists i: nat :: OccursAt(s, marker, i)
  }

  /** A marker that cannot overlap itself: its first character does not come again. */
  predicate IsMarker(marker: string) {
    marker != "" && forall i :: 0 < i < |marker| ==> marker[i] != marker[0]
  }

  lemma EndOfText(s: string, a: string, b: string)
    requires s == a + b
    ensures |s| == |a| + |b| && s[|a|..] == b && forall i :: 0 <= i < |b| ==> s[|a| + i] == b[i]
  {
  }

  /** Text that ends in a marker and the name c2 also ends in the marker and c1 exactly if the names
      are the same, or c2 itself ends so; c1 does not contain the marker. */
  lemma EndsInNameIff(s: string, x: string, c1: string, c2: string, marker: string)
    requires IsMarker(marker) && !Contains(c1, marker) && s == x + (marker + c2)
    ensures HasSuffix(s, marker + c1) <==> c1 == c2 || HasSuffix(c2, marker + c1)
  {
    EndOfText(s, x, marker + c2);
    if HasSuffix(s, marker + c1) {
      var y := s[..|s| - |marker + c1|];
      assert s == y + (marker + c1);
      EndOfText(s, y, marker + c1);
      if |c1| < |c2| {
        MarkerInside(s, x, y, c2, c1, marker);
      } else if |c2| < |c1| {
        MarkerInside(s, y, x, c1, c2, marker);
      } else {
        assert (marker + c1)[|marker|..] == c1 && (marker + c2)[|marker|..] == c2;
      }
    }
    if HasSuffix(c2, marker + c1) {
      var z := c2[..|c2| - |marker + c1|];
      assert c2 == z + (marker + c1);
      assert s == (x + (marker + z)) + (marker + c1);
      EndsWith(x + (marker + z), marker + c1);
    }
    if c1 == c2 {
      EndsWith(x, marker + c1);
    }
  }

  /** If the second marker starts later, it starts inside the first name. */
  lemma MarkerInside(s: string, x: string, y: string, long: string, short: string, marker: string)
    requires IsMarker(marker) && s == x + (marker + long) && s == y + (marker + short) && |short| < |long|
    ensures Contains(long, marker) && HasSuffix(long, marker + short)
  {
    var d := |long| - |short|;
    EndOfText(s, x, marker + long);
    EndOfText(s, y, marker + short);
    assert |y| == |x| + d;
    assert s[|y|] == marker[0] && s[|x| + d] == (marker + long)[d];
    if d < |marker| {
      assert false;
    } else {
      var i := d - |marker|;
      forall k | 0 <= k < |marker|
        ensures long[i + k] == marker[k]
      {
        assert s[|x| + (d + k)] == (marker + long)[d + k] == long[i + k];
        assert s[|y| + k] == (marker + short)[k] == marker[k];
      }
      assert OccursAt(long, marker, i);
      assert long == (marker + long)[|marker|..];
      assert long[i..] == s[|y|..];
    }
  }

  // ---------- floating IPs ----------

  /** A floating IP described for another cluster is never the target of a DELETE, unless that
      cluster's name itself ends in the marker and this cluster's name. */
  lemma OtherClustersFloatingIPSurvives(fip: Resource, x: string, c2: string,
                                        req: Request, inv: Inventory, answers: nat -> Answer, n: nat)
    requires fip in inv.floatingIPs && fip.FloatingIP? && DistinctIDs(inv.floatingIPs)
    requires fip.description == x + ("from cluster " + c2) && req.clusterName != c2
    requires !Contains(req.clusterName, "from cluster ") && !HasSuffix(c2, "from cluster " + req.clusterName)
    ensures Delete(FloatingIPs, fip.id) !in RunSpec(req, inv, answers, n).calls
  {
    hide RunSpec, HasPrefix, Contains;
    assert IsMarker("from cluster ");
    EndsInNameIff(fip.description, x, req.clusterName, c2, "from cluster ");
    UnselectedIsNeverDeleted(FloatingIPs, fip, req, inv, answers, n);
  }

  lemma StartsWith(a: string, b: string)
    ensures HasPrefix(a + b, a)
  {
  }

  lemma EndsWith(a: string, b: string)
    ensures HasSuffix(a + b, b)
  {
    EndOfText(a + b, a, b);
  }

  lemma JoinLeft(a: string, b: string, c: string)
    ensures a + b + c == a + (b + c)
  {
  }

  lemma OwnFloatingIPMatches(fip: Resource, service: string, cluster: string)
    requires fip.FloatingIP?
    requires fip.description == "Floating IP for Kubernetes external service" + service + ("from cluster " + cluster)
    ensures FloatingIPMatches(fip, cluster)
  {
    var start, end := "Floating IP for Kubernetes external service", "from cluster " + cluster;
    StartsWith(start, service + end);
    JoinLeft(start, service, end);
    EndsWith(start + service, end);
    hide HasPrefix, HasSuffix;
  }

  /** The one described for this cluster is selected, unless it sits on a protected VIP port. */
  lemma OwnFloatingIPIsSelected(fip: Resource, service: string, inv: Inventory, cluster: string)
    requires fip in inv.floatingIPs && fip.FloatingIP?
    requires fip.description == "Floating IP for Kubernetes external service" + service + ("from cluster " + cluster)
    requires fip.attachedPortID !in ProtectedPorts(inv.loadBalancers, cluster)
    ensures fip.id in Selected(FloatingIPs, inv, cluster)
  {
    hide HasPrefix, HasSuffix, FloatingIPMatches;
    OwnFloatingIPMatches(fip, service, cluster);
    SelectedIff(FloatingIPs, inv.floatingIPs, ProtectedPorts(inv.loadBalancers, cluster), cluster, fip.id);
  }

  /** That exception is real: the address of "b from cluster a" is selected for "a". */
  lemma MarkedNameIsConfused(fip: Resource, service: string, inv: Inventory)
    requires fip in inv.floatingIPs && fip.FloatingIP? && fip.attachedPortID !in ProtectedPorts(inv.loadBalancers, "a")
    requires fip.description == "Floating IP for Kubernetes external service" + service + ("from cluster " + "b from cluster a")
    ensures fip.id in Selected(FloatingIPs, inv, "a")
  {
    hide Selected, ProtectedPorts;
    var start := "Floating IP for Kubernetes external service";
    var before := service + "from cluster b ";
    assert "from cluster " + "b from cluster a" == "from cluster b " + ("from cluster " + "a");
    assert fip.description == start + before + ("from cluster " + "a");
    OwnFloatingIPIsSelected(fip, before, inv, "a");
  }

  // ---------- security groups ----------

  lemma OtherClustersSecurityGroupSurvives(group: Resource, x: string, c2: string,
                                           req: Request, inv: Inventory, answers: nat -> Answer, n: nat)
    requires group in inv.securityGroups && group.SecurityGroup? && DistinctIDs(inv.securityGroups)
    requires group.description == x + ("Service LoadBalancer in cluster " + c2) && req.clusterName != c2
    requires !Contains(req.clusterName, "Service LoadBalancer in cluster ")
    requires !HasSuffix(c2, "Service LoadBalancer in cluster " + req.clusterName)
    ensures Delete(SecurityGroups, group.id) !in RunSpec(req, inv, answers, n).calls
  {
    hide RunSpec, HasPrefix, Contains;
    assert IsMarker("Service LoadBalancer in cluster ");
    EndsInNameIff(group.description, x, req.clusterName, c2, "Service LoadBalancer in cluster ");
    UnselectedIsNeverDeleted(SecurityGroups, group, req, inv, answers, n);
  }

  lemma OwnSecurityGroupIsSelected(group: Resource, service: string, inv: Inventory, cluster: string)
    requires group in inv.securityGroups && group.SecurityGroup?
    requires group.description == "Security Group for" + service + ("Service LoadBalancer in cluster " + cluster)
    ensures group.id in Selected(SecurityGroups, inv, cluster)
  {
    var start, end := "Security Group for", "Service LoadBalancer in cluster " + cluster;
    StartsWith(start, service + end);
    JoinLeft(start, service, end);
    EndsWith(start + service, end);
    hide HasPrefix, HasSuffix;
    SelectedIff(SecurityGroups, inv.securityGroups, ProtectedPorts(inv.loadBalancers, cluster), cluster, group.id);
  }

  /** A description with another beginning is nobody's: it survives every run. */
  lemma ForeignTextSurvives(r: Resource, req: Request, inv: Inventory, answers: nat -> Answer, n: nat)
    requires DistinctIDs(inv.floatingIPs) && DistinctIDs(inv.securityGroups)
    ensures r in inv.floatingIPs && r.FloatingIP? && !("Floating IP for Kubernetes external service" <= r.description) ==>
      Delete(FloatingIPs, r.id) !in RunSpec(req, inv, answers, n).calls
    ensures r in inv.securityGroups && r.SecurityGroup? && !("Security Group for" <= r.description) ==>
      Delete(SecurityGroups, r.id) !in RunSpec(req, inv, answers, n).calls
  {
    hide RunSpec, HasSuffix;
    if r in inv.floatingIPs && r.FloatingIP? && !("Floating IP for Kubernetes external service" <= r.description) {
      UnselectedIsNeverDeleted(FloatingIPs, r, req, inv, answers, n);
    }
    if r in inv.securityGroups && r.SecurityGroup? && !("Security Group for" <= r.description) {
      UnselectedIsNeverDeleted(SecurityGroups, r, req, inv, answers, n);
    }
  }

  // ---------- load balancers ----------

  /** A load balancer whose name does not begin as OCCM's for this cluster survives every run. */
  lemma OtherNamesSurvive(lb: Resource, req: Request, inv: Inventory, answers: nat -> Answer, n: nat)
    requires lb in inv.loadBalancers && lb.LoadBalancer? && DistinctIDs(inv.loadBalancers)
    requires !("kube_service_" + req.clusterName + "_" <= lb.name)
    ensures Delete(LoadBalancers, lb.id) !in RunSpec(req, inv, answers, n).calls
  {
    hide RunSpec;
    UnselectedIsNeverDeleted(LoadBalancers, lb, req, inv, answers, n);
  }

  /** One named for this cluster is selected if every reserved tag it carries is one that OCCM
      writes for a Service of this cluster. */
  lemma OwnLoadBalancerIsSelected(lb: Resource, rest: string, inv: Inventory, cluster: string)
    requires lb in inv.loadBalancers && lb.LoadBalancer? && lb.name == "kube_service_" + cluster + "_" + rest
    requires forall tag :: tag in lb.tags && "kube_service_" <= tag ==>
      exists ns, svc :: IsComponent(ns) && IsComponent(svc) && tag == ServiceTag(cluster, ns, svc)
    ensures lb.id in Selected(LoadBalancers, inv, cluster)
  {
    StartsWith("kube_service_" + cluster + "_", rest);
    forall tag | tag in lb.tags && "kube_service_" <= tag
      ensures IsValidServiceTag(tag, cluster)
    {
      ValidTagIffBuilt(tag, cluster);
    }
    hide IsValidServiceTag;
    assert !IsForeign(lb, cluster);
    SelectedIff(LoadBalancers, inv.loadBalancers, ProtectedPorts(inv.loadBalancers, cluster), cluster, lb.id);
  }

  /** A load balancer named for this cluster, or a floating IP described for it, that has no ID
      fails the whole run before any DELETE, of whatever kind. */
  lemma MissingIDBlocksDeletion(r: Resource, req: Request, inv: Inventory, answers: nat -> Answer, n: nat)
    requires r.id == ""
    requires || (r in inv.loadBalancers && r.LoadBalancer? && "kube_service_" + req.clusterName + "_" <= r.name)
             || (r in inv.floatingIPs && r.FloatingIP? && exists service ::
                   r.description == "Floating IP for Kubernetes external service" + service + ("from cluster " + req.clusterName))
    ensures var e := RunSpec(req, inv, answers, n);
      e.result.Err? && !e.result.error.DeleteFailed? && forall c :: c in e.calls ==> c.List?
  {
    var cluster := req.clusterName;
    RunIsSafe(req, inv, answers, n);
    FirstFaultIff(LoadBalancers, inv.loadBalancers, cluster);
    FirstFaultIff(FloatingIPs, inv.floatingIPs, cluster);
    FaultsSendNothing(LoadBalancers, inv.loadBalancers, cluster);
    FaultsSendNothing(FloatingIPs, inv.floatingIPs, cluster);
    if r in inv.loadBalancers && r.LoadBalancer? && "kube_service_" + cluster + "_" <= r.name {
      assert Fault(LoadBalancers, r, cluster).Some?;
    } else {
      var service :| r.description == "Floating IP for Kubernetes external service" + service + ("from cluster " + cluster);
      OwnFloatingIPMatches(r, service, cluster);
      assert Fault(FloatingIPs, r, cluster).Some?;
    }
    hide HasPrefix, HasSuffix, FirstFault, Selected, LaterPhases, DeletePhase;
  }

  // ---------- volumes and snapshots ----------

  /** A volume or snapshot that does not name this cluster, and a volume marked to be kept, is
      never the target of a DELETE; one without an entry names nobody. */
  lemma OtherMetadataSurvives(kind: Kind, r: Resource, req: Request, inv: Inventory, answers: nat -> Answer, n: nat)
    requires r in inv.Of(kind) && DistinctIDs(inv.Of(kind)) && ((kind.Volumes? && r.Volume?) || (kind.Snapshots? && r.Snapshot?))
    requires || "cinder.csi.openstack.org/cluster" !in r.metadata || r.metadata["cinder.csi.openstack.org/cluster"] != req.clusterName
             || (kind.Volumes? && "janitor.capi.azimuth-cloud.com/keep" in r.metadata && r.metadata["janitor.capi.azimuth-cloud.com/keep"] == "true")
    ensures Delete(kind, r.id) !in RunSpec(req, inv, answers, n).calls
  {
    if req.clusterName != "" {
      hide RunSpec;
      UnselectedIsNeverDeleted(kind, r, req, inv, answers, n);
    }
  }

  /** One that names this cluster and is not marked is selected. */
  lemma OwnMetadataIsSelected(kind: Kind, r: Resource, inv: Inventory, cluster: string)
    requires r in inv.Of(kind) && ((kind.Volumes? && r.Volume?) || (kind.Snapshots? && r.Snapshot?))
    requires "cinder.csi.openstack.org/cluster" in r.metadata && r.metadata["cinder.csi.openstack.org/cluster"] == cluster
    requires kind.Volumes? && "janitor.capi.azimuth-cloud.com/keep" in r.metadata ==> r.metadata["janitor.capi.azimuth-cloud.com/keep"] != "true"
    ensures r.id in Selected(kind, inv, cluster)
  {
    SelectedIff(kind, inv.Of(kind), ProtectedPorts(inv.loadBalancers, cluster), cluster, r.id);
  }
}
