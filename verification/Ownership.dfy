/** Which OpenStack resources a cluster name owns (internal/cleanup/runner.go). */
module Ownership {
  import opened GoStrings

  datatype Resource =
    | FloatingIP(id: string, description: string, attachedPortID: string)
    | LoadBalancer(id: string, name: string, tags: seq<string>, vipPortID: string)
    | SecurityGroup(id: string, description: string)
    | Snapshot(id: string, metadata: map<string, string>)
    | Volume(id: string, metadata: map<string, string>)

  const FLOATING_IP_PREFIX := "Floating IP for Kubernetes external service"
  const FLOATING_IP_SUFFIX := "from cluster "
  const SERVICE_PREFIX := "kube_service_"
  const SECURITY_GROUP_PREFIX := "Security Group for"
  const SECURITY_GROUP_SUFFIX := "Service LoadBalancer in cluster "
  const CLUSTER_METADATA_KEY := "cinder.csi.openstack.org/cluster"
  const KEEP_METADATA_KEY := "janitor.capi.azimuth-cloud.com/keep"

  /** A missing key reads as the empty string, as in a Go map. */
  function Lookup(m: map<string, string>, key: string): string {
    if key in m then m[key] else ""
  }

  predicate FloatingIPMatches(r: Resource, cluster: string) {
    r.FloatingIP? && HasPrefix(r.description, FLOATING_IP_PREFIX)
    && HasSuffix(r.description, FLOATING_IP_SUFFIX + cluster)
  }

  predicate LoadBalancerMatches(r: Resource, cluster: string) {
    r.LoadBalancer? && HasPrefix(r.name, SERVICE_PREFIX + cluster + "_")
  }

  predicate SecurityGroupMatches(r: Resource, cluster: string) {
    r.SecurityGroup? && HasPrefix(r.description, SECURITY_GROUP_PREFIX)
    && HasSuffix(r.description, SECURITY_GROUP_SUFFIX + cluster)
  }

  predicate SnapshotMatches(r: Resource, cluster: string) {
    r.Snapshot? && Lookup(r.metadata, CLUSTER_METADATA_KEY) == cluster
  }

  predicate VolumeMatches(r: Resource, cluster: string) {
    r.Volume? && Lookup(r.metadata, CLUSTER_METADATA_KEY) == cluster
    && Lookup(r.metadata, KEEP_METADATA_KEY) != "true"
  }

  /** The tag parser: cut the cluster prefix, split the rest, demand two non-empty parts. */
  predicate IsValidServiceTag(tag: string, cluster: string) {
    var prefix := SERVICE_PREFIX + cluster + "_";
    && HasPrefix(tag, prefix)
    && var parts := Split(tag[|prefix|..], '_');
       |parts| == 2 && parts[0] != "" && parts[1] != ""
  }

  predicate IsForeignTag(tag: string, cluster: string) {
    HasPrefix(tag, SERVICE_PREFIX) && !IsValidServiceTag(tag, cluster)
  }

  predicate IsForeign(r: Resource, cluster: string) {
    r.LoadBalancer? && exists tag :: tag in r.tags && IsForeignTag(tag, cluster)
  }

  /** The loop of runner.go:210-220 computes `IsForeign`. */
  method HasForeignOrInvalidServiceTag(lb: Resource, cluster: string) returns (foreign: bool)
    requires lb.LoadBalancer?
    ensures foreign <==> IsForeign(lb, cluster)
  {
    for i := 0 to |lb.tags|
      invariant forall k :: 0 <= k < i ==> !IsForeignTag(lb.tags[k], cluster)
    {
      if !HasPrefix(lb.tags[i], SERVICE_PREFIX) {
        continue;
      }
      if !IsValidServiceTag(lb.tags[i], cluster) {
        assert lb.tags[i] in lb.tags && IsForeignTag(lb.tags[i], cluster);
        return true;
      }
    }
    return false;
  }

  /** A namespace or Service name: not empty, no underscore. */
  predicate IsComponent(s: string) {
    s != "" && '_' !in s
  }

  /** The tag OCCM writes on a load balancer for one Service. */
  function ServiceTag(cluster: string, ns: string, svc: string): string {
    SERVICE_PREFIX + cluster + "_" + ns + "_" + svc
  }

  lemma ValidTagIsBuilt(tag: string, cluster: string)
    requires IsValidServiceTag(tag, cluster)
    ensures exists ns, svc :: IsComponent(ns) && IsComponent(svc) && tag == ServiceTag(cluster, ns, svc)
  {
    var prefix := SERVICE_PREFIX + cluster + "_";
    var rest := tag[|prefix|..];
    var parts := Split(rest, '_');
    JoinAfterSplit(rest, '_');
    hide Split;
    assert parts[1..] == [parts[1]];
    assert Join(parts, '_') == parts[0] + "_" + parts[1];
    assert tag == prefix + rest;
    assert IsComponent(parts[0]) && IsComponent(parts[1]) && tag == ServiceTag(cluster, parts[0], parts[1]);
  }

  lemma BuiltTagIsValid(cluster: string, ns: string, svc: string)
    requires IsComponent(ns) && IsComponent(svc)
    ensures IsValidServiceTag(ServiceTag(cluster, ns, svc), cluster)
  {
    SplitAfterJoin([ns, svc], '_');
    hide Split;
    var prefix, rest := SERVICE_PREFIX + cluster + "_", ns + "_" + svc;
    assert [ns, svc][1..] == [svc];
    assert Join([ns, svc], '_') == rest;
    assert ServiceTag(cluster, ns, svc) == prefix + rest;
    assert (prefix + rest)[|prefix|..] == rest;
  }

  /** The parser accepts exactly the tags OCCM can write for this cluster, whatever the name. */
  lemma ValidTagIffBuilt(tag: string, cluster: string)
    ensures IsValidServiceTag(tag, cluster)
       <==> exists ns, svc :: IsComponent(ns) && IsComponent(svc) && tag == ServiceTag(cluster, ns, svc)
  {
    hide IsValidServiceTag, ServiceTag, IsComponent;
    if IsValidServiceTag(tag, cluster) {
      ValidTagIsBuilt(tag, cluster);
    }
    forall ns, svc | IsComponent(ns) && IsComponent(svc) && tag == ServiceTag(cluster, ns, svc)
      ensures IsValidServiceTag(tag, cluster)
    {
      BuiltTagIsValid(cluster, ns, svc);
    }
  }

  /** Text that ends in a component splits uniquely at its last underscore. */
  lemma LastComponent(a: string, x: string, b: string, y: string)
    requires IsComponent(x) && IsComponent(y)
    requires a + "_" + x == b + "_" + y
    ensures a == b && x == y
  {
    var s := a + "_" + x;
    assert s[|a|] == '_' && s[|b|] == '_';
    assert forall k :: |a| < k < |s| ==> s[k] == x[k - |a| - 1];
    assert forall k :: |b| < k < |s| ==> s[k] == y[k - |b| - 1];
    assert |a| == |b|;
    assert s[..|a|] == a && s[|a| + 1..] == x;
    assert s[..|b|] == b && s[|b| + 1..] == y;
  }

  /** A tag names one cluster, namespace and Service: reading from the right undoes building,
      with no assumption on either cluster name. */
  lemma TagDecomposesUniquely(c1: string, ns1: string, svc1: string, c2: string, ns2: string, svc2: string)
    requires IsComponent(ns1) && IsComponent(svc1) && IsComponent(ns2) && IsComponent(svc2)
    requires ServiceTag(c1, ns1, svc1) == ServiceTag(c2, ns2, svc2)
    ensures c1 == c2 && ns1 == ns2 && svc1 == svc2
  {
    LastComponent(SERVICE_PREFIX + c1 + "_" + ns1, svc1, SERVICE_PREFIX + c2 + "_" + ns2, svc2);
    LastComponent(SERVICE_PREFIX + c1, ns1, SERVICE_PREFIX + c2, ns2);
    assert (SERVICE_PREFIX + c1)[|SERVICE_PREFIX|..] == c1;
    assert (SERVICE_PREFIX + c2)[|SERVICE_PREFIX|..] == c2;
  }

  /** A Service tag of another cluster vetoes deletion even when one name is an underscore
      prefix of the other. */
  lemma OtherClustersTagIsForeign(lb: Resource, c1: string, c2: string, ns: string, svc: string)
    requires lb.LoadBalancer? && IsComponent(ns) && IsComponent(svc)
    requires ServiceTag(c2, ns, svc) in lb.tags
    ensures c1 != c2 ==> IsForeign(lb, c1)
    ensures !IsForeignTag(ServiceTag(c2, ns, svc), c2)
  {
    var tag := ServiceTag(c2, ns, svc);
    ValidTagIffBuilt(tag, c1);
    ValidTagIffBuilt(tag, c2);
    assert tag == SERVICE_PREFIX + (c2 + "_" + ns + "_" + svc);
    if IsValidServiceTag(tag, c1) {
      var ns1, svc1 :| IsComponent(ns1) && IsComponent(svc1) && tag == ServiceTag(c1, ns1, svc1);
      TagDecomposesUniquely(c1, ns1, svc1, c2, ns, svc);
    }
  }
}
