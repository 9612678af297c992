/** The Kubernetes objects of one namespace, and what the controller reads from them. */
module Objects {
  import opened Results
  import opened GoStrings
  import opened Credentials
  import Checkpoint

  const FINALIZER := "janitor.capi.stackhpc.com"
  const CHECKPOINT_ANNOTATION := "janitor.capi.stackhpc.com/credential-cleanup"
  const VOLUMES_POLICY_ANNOTATION := "janitor.capi.stackhpc.com/volumes-policy"
  const CREDENTIAL_POLICY_ANNOTATION := "janitor.capi.stackhpc.com/credential-policy"
  const CLUSTER_NAME_LABEL := "cluster.x-k8s.io/cluster-name"
  const PAUSED_ANNOTATION := "cluster.x-k8s.io/paused"
  const CAPI_GROUP := "cluster.x-k8s.io"

  datatype OwnerRef = OwnerRef(apiVersion: string, kind: string, name: string, uid: string)

  datatype IdentityRef = IdentityRef(kind: string, name: string, cloudName: string) {
    predicate IsDirectSecret() {
      kind == "" || kind == "Secret"
    }
  }

  /** An OpenStackCluster. `version` is its resourceVersion, `deleting` a set deletionTimestamp. */
  datatype Cluster = Cluster(
    name: string, uid: string, version: nat, generation: nat, deleting: bool, finalizers: seq<string>,
    labels: map<string, string>, annotations: map<string, string>, owners: seq<OwnerRef>, identity: IdentityRef)

  datatype Secret = Secret(
    name: string, uid: string, version: nat, deleting: bool, finalizers: seq<string>,
    annotations: map<string, string>, clouds: Clouds)

  /** The owning CAPI Cluster. */
  datatype Owner = Owner(name: string, uid: string, specPaused: bool, annotations: map<string, string>)

  function Get(m: map<string, string>, key: string): Option<string> {
    if key in m then Some(m[key]) else None
  }

  /** The label wins even when it is empty. */
  function ClusterNameFor(c: Cluster): string {
    if CLUSTER_NAME_LABEL in c.labels then c.labels[CLUSTER_NAME_LABEL] else c.name
  }

  /** The annotation wins over the operator's default; only "delete" deletes volumes. */
  function VolumesPolicyFor(operatorDefault: string, c: Cluster): (p: string)
    ensures p == Checkpoint.POLICY_DELETE || p == Checkpoint.POLICY_KEEP
  {
    var byDefault := if operatorDefault == "" then Checkpoint.POLICY_DELETE else operatorDefault;
    var policy := if VOLUMES_POLICY_ANNOTATION in c.annotations then c.annotations[VOLUMES_POLICY_ANNOTATION] else byDefault;
    if policy == Checkpoint.POLICY_DELETE then Checkpoint.POLICY_DELETE else Checkpoint.POLICY_KEEP
  }

  function SelectedCloud(c: Cluster): string {
    if c.identity.cloudName != "" then c.identity.cloudName else DEFAULT_CLOUD
  }

  function CheckpointText(c: Cluster): Option<string> {
    Get(c.annotations, CHECKPOINT_ANNOTATION)
  }

  function ReadCheckpoint(c: Cluster): Checkpoint.Reading {
    Checkpoint.Read(CheckpointText(c))
  }

  /** A checkpoint that reads well is in one of the two phases. */
  lemma GoodHasPhase(c: Cluster)
    requires ReadCheckpoint(c).Good?
    ensures ReadCheckpoint(c).state.phase == Checkpoint.STARTED || ReadCheckpoint(c).state.phase == Checkpoint.CONFIRMED
  {
    hide Checkpoint.Decode, ValidateBinding;
  }

  predicate RequestsCredentialDeletion(s: Secret) {
    Get(s.annotations, CREDENTIAL_POLICY_ANNOTATION) == Some(Checkpoint.POLICY_DELETE)
  }

  predicate HasFinalizer(c: Cluster) {
    FINALIZER in c.finalizers
  }

  function RemoveFinalizer(finalizers: seq<string>): (rest: seq<string>)
    ensures forall f :: f in rest <==> f in finalizers && f != FINALIZER
  {
    if finalizers == [] then []
    else (if finalizers[0] == FINALIZER then [] else [finalizers[0]]) + RemoveFinalizer(finalizers[1..])
  }

  /** Ours goes, and nothing else: the others stay, in order. */
  lemma {:induction false} RemovesOnlyOurs(before: seq<string>, after: seq<string>)
    requires FINALIZER !in before && FINALIZER !in after
    ensures RemoveFinalizer(before + [FINALIZER] + after) == before + after
    decreases |before|
  {
    var all := before + [FINALIZER] + after;
    if before == [] {
      assert all[1..] == after;
      KeepsOthers(after);
      assert before + after == after;
    } else {
      assert all[1..] == before[1..] + [FINALIZER] + after && all[0] == before[0];
      RemovesOnlyOurs(before[1..], after);
      assert [before[0]] + (before[1..] + after) == before + after;
    }
  }

  lemma {:induction false} KeepsOthers(finalizers: seq<string>)
    requires FINALIZER !in finalizers
    ensures RemoveFinalizer(finalizers) == finalizers
  {
    if finalizers != [] {
      KeepsOthers(finalizers[1..]);
      assert [finalizers[0]] + finalizers[1..] == finalizers;
    }
  }
}
