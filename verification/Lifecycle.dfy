/** Pausing, and the watch indexes that wake an OpenStackCluster up
    (internal/controller/lifecycle.go, credential_cleanup.go:203-222). */
module Lifecycle {
  import opened Results
  import opened GoStrings
  import opened Objects

  predicate HasPauseAnnotation(annotations: map<string, string>) {
    PAUSED_ANNOTATION in annotations
  }

  predicate OwnerIsPaused(o: Owner) {
    o.specPaused || HasPauseAnnotation(o.annotations)
  }

  /** An owner reference to a CAPI Cluster of any version of its group. */
  predicate IsClusterOwner(ref: OwnerRef) {
    var gv := Split(ref.apiVersion, '/');
    |gv| == 2 && gv[0] == CAPI_GROUP && ref.kind == "Cluster" && ref.name != "" && ref.uid != ""
  }

  /** This reference names an existing, paused Cluster. */
  predicate PausedThrough(owners: map<string, Owner>, ref: OwnerRef) {
    IsClusterOwner(ref) && ref.name in owners && owners[ref.name].uid == ref.uid && OwnerIsPaused(owners[ref.name])
  }

  predicate Paused(owners: map<string, Owner>, c: Cluster) {
    HasPauseAnnotation(c.annotations) || exists ref :: ref in c.owners && PausedThrough(owners, ref)
  }

  /** The loop of isPaused. A reference whose Cluster cannot be read stops it with an error, but
      only if no earlier reference has already answered. */
  method IsPaused(owners: map<string, Owner>, unreadable: set<string>, c: Cluster) returns (r: Result<bool, string>)
    ensures r.Ok? ==> (r.value <==> Paused(owners, c))
    ensures r.Err? ==> !HasPauseAnnotation(c.annotations)
                       && exists ref :: ref in c.owners && IsClusterOwner(ref) && ref.name in unreadable
  {
    if HasPauseAnnotation(c.annotations) {
      return Ok(true);
    }
    for i := 0 to |c.owners|
      invariant forall k :: 0 <= k < i ==> !PausedThrough(owners, c.owners[k])
    {
      var ref := c.owners[i];
      if !IsClusterOwner(ref) {
        continue;
      }
      if ref.name in unreadable {
        return Err("reading owning Cluster");
      }
      if ref.name !in owners {
        continue;
      }
      if owners[ref.name].uid == ref.uid && OwnerIsPaused(owners[ref.name]) {
        assert ref in c.owners && PausedThrough(owners, ref);
        return Ok(true);
      }
    }
    return Ok(false);
  }

  /** An owner reference to a CAPI Cluster, by its text: any version of the group. */
  ghost predicate RefersToCluster(ref: OwnerRef) {
    && (exists version :: ref.apiVersion == "cluster.x-k8s.io" + "/" + version && '/' !in version)
    && ref.kind == "Cluster" && ref.name != "" && ref.uid != ""
  }

  lemma ClusterOwnerIff(ref: OwnerRef)
    ensures IsClusterOwner(ref) <==> RefersToCluster(ref)
  {
    var parts := Split(ref.apiVersion, '/');
    if IsClusterOwner(ref) {
      JoinAfterSplit(ref.apiVersion, '/');
      hide Split;
      assert parts[1..] == [parts[1]];
      assert ref.apiVersion == "cluster.x-k8s.io" + "/" + parts[1];
    }
    if version :| ref.apiVersion == "cluster.x-k8s.io" + "/" + version && '/' !in version {
      SplitAfterJoin(["cluster.x-k8s.io", version], '/');
      hide Split;
      assert ["cluster.x-k8s.io", version][1..] == [version];
      assert Join(["cluster.x-k8s.io", version], '/') == ref.apiVersion;
    }
  }

  /** Paused, by the fields: the annotation on the object, or a reference to an existing Cluster with
      that UID which is paused in its spec or by the annotation. */
  lemma PausedIff(owners: map<string, Owner>, c: Cluster)
    ensures Paused(owners, c)
       <==> "cluster.x-k8s.io/paused" in c.annotations
            || exists ref :: ref in c.owners && RefersToCluster(ref) && ref.name in owners && owners[ref.name].uid == ref.uid
                 && (owners[ref.name].specPaused || "cluster.x-k8s.io/paused" in owners[ref.name].annotations)
  {
    hide RefersToCluster, IsClusterOwner;
    forall ref
      ensures IsClusterOwner(ref) <==> RefersToCluster(ref)
    {
      ClusterOwnerIff(ref);
    }
  }

  // ---------- indexes ----------

  function OwnerIndexKey(name: string, uid: string): string {
    name + "/" + uid
  }

  /** The keys under which the owner index files a cluster. */
  function OwnerKeys(refs: seq<OwnerRef>): seq<string> {
    if refs == [] then []
    else
      var last := refs[|refs| - 1];
      OwnerKeys(refs[..|refs| - 1]) + (if IsClusterOwner(last) then [OwnerIndexKey(last.name, last.uid)] else [])
  }

  method OwnerClusterKeys(c: Cluster) returns (keys: seq<string>)
    ensures keys == OwnerKeys(c.owners)
  {
    keys := [];
    for i := 0 to |c.owners|
      invariant keys == OwnerKeys(c.owners[..i])
    {
      assert c.owners[..i + 1][..i] == c.owners[..i];
      if IsClusterOwner(c.owners[i]) {
        keys := keys + [OwnerIndexKey(c.owners[i].name, c.owners[i].uid)];
      }
    }
    assert c.owners[..|c.owners|] == c.owners;
  }

  function IdentitySecretKeys(c: Cluster): seq<string> {
    if c.identity.name == "" || !c.identity.IsDirectSecret() then [] else [c.identity.name]
  }

  /** The names a reference event enqueues: every listed cluster filed under the key, once each
      time it is listed. */
  function Matching(items: seq<Cluster>, key: string): seq<string> {
    if items == [] then []
    else
      var last := items[|items| - 1];
      Matching(items[..|items| - 1], key) + (if key in OwnerKeys(last.owners) then [last.name] else [])
  }

  method RequestsForCluster(items: seq<Cluster>, owner: Owner) returns (requests: seq<string>)
    ensures requests == Matching(items, OwnerIndexKey(owner.name, owner.uid))
  {
    requests := [];
    for i := 0 to |items|
      invariant requests == Matching(items[..i], OwnerIndexKey(owner.name, owner.uid))
    {
      assert items[..i + 1][..i] == items[..i];
      var keys := OwnerClusterKeys(items[i]);
      if OwnerIndexKey(owner.name, owner.uid) in keys {
        requests := requests + [items[i].name];
      }
    }
    assert items[..|items|] == items;
  }

  /** The owner index files under different keys what differs in name or UID; names have no slash. */
  lemma OwnerKeysAreExact(name: string, uid: string, name': string, uid': string)
    requires '/' !in name && '/' !in name'
    ensures OwnerIndexKey(name, uid) == OwnerIndexKey(name', uid') <==> name == name' && uid == uid'
  {
    CutAt(name, '/', uid);
    CutAt(name', '/', uid');
    assert name + "/" + uid == name + ['/'] + uid && name' + "/" + uid' == name' + ['/'] + uid';
    if |name| < |name'| {
      assert (name' + ['/'] + uid')[|name|] == name'[|name|];
    } else if |name'| < |name| {
      assert (name + ['/'] + uid)[|name'|] == name[|name'|];
    }
  }

  /** The wake-up of a Cluster enqueues only objects that refer to this very Cluster. */
  lemma {:induction false} OnlyOwnedAreWoken(items: seq<Cluster>, key: string, request: string)
    ensures request in Matching(items, key) <==> exists c :: c in items && c.name == request && key in OwnerKeys(c.owners)
    decreases |items|
  {
    if items != [] {
      var front, last := items[..|items| - 1], items[|items| - 1];
      OnlyOwnedAreWoken(front, key, request);
      assert items == front + [last];
    }
  }

  lemma {:induction false} OwnerKeysIff(refs: seq<OwnerRef>, key: string)
    ensures key in OwnerKeys(refs) <==> exists ref :: ref in refs && RefersToCluster(ref) && key == ref.name + "/" + ref.uid
    decreases |refs|
  {
    hide IsClusterOwner, RefersToCluster;
    if refs != [] {
      var front, last := refs[..|refs| - 1], refs[|refs| - 1];
      OwnerKeysIff(front, key);
      ClusterOwnerIff(last);
      assert refs == front + [last];
    }
  }

  predicate ClusterPauseChanged(previous: Owner, current: Owner) {
    previous.uid != current.uid || previous.specPaused != current.specPaused
    || HasPauseAnnotation(previous.annotations) != HasPauseAnnotation(current.annotations)
  }

  lemma {:induction false} OwnerKeysContain(refs: seq<OwnerRef>, ref: OwnerRef)
    requires ref in refs && IsClusterOwner(ref)
    ensures OwnerIndexKey(ref.name, ref.uid) in OwnerKeys(refs)
    decreases |refs|
  {
    if ref != refs[|refs| - 1] {
      assert refs == refs[..|refs| - 1] + [refs[|refs| - 1]];
      OwnerKeysContain(refs[..|refs| - 1], ref);
    }
  }

  lemma {:induction false} MatchingContains(items: seq<Cluster>, c: Cluster, key: string)
    requires c in items && key in OwnerKeys(c.owners)
    ensures c.name in Matching(items, key)
    decreases |items|
  {
    if c != items[|items| - 1] {
      assert items == items[..|items| - 1] + [items[|items| - 1]];
      MatchingContains(items[..|items| - 1], c, key);
    }
  }

  /** Who paused it before the update, or pauses it after, files the cluster under its key. */
  lemma PauserIsIndexed(items: seq<Cluster>, c: Cluster, owners: map<string, Owner>, name: string)
    requires c in items && name in owners && owners[name].name == name
    requires exists ref :: ref in c.owners && ref.name == name && PausedThrough(owners, ref)
    ensures c.name in Matching(items, OwnerIndexKey(name, owners[name].uid))
  {
    var ref :| ref in c.owners && ref.name == name && PausedThrough(owners, ref);
    OwnerKeysContain(c.owners, ref);
    MatchingContains(items, c, OwnerIndexKey(name, owners[name].uid));
  }

  /** No lost wake-up: an update of one Cluster that changes whether an OpenStackCluster is paused
      passes the watch predicate, and the owner index maps the old or the new Cluster to it. */
  lemma NoLostWakeUp(items: seq<Cluster>, c: Cluster, owners: map<string, Owner>, previous: Owner, current: Owner)
    requires c in items
    requires previous.name == current.name && previous.name in owners && owners[previous.name] == previous
    requires Paused(owners, c) != Paused(owners[current.name := current], c)
    ensures ClusterPauseChanged(previous, current)
    ensures c.name in Matching(items, OwnerIndexKey(previous.name, previous.uid))
         || c.name in Matching(items, OwnerIndexKey(current.name, current.uid))
  {
    var after := owners[current.name := current];
    if Paused(owners, c) {
      var ref :| ref in c.owners && PausedThrough(owners, ref);
      assert !PausedThrough(after, ref);
      PauserIsIndexed(items, c, owners, previous.name);
    } else {
      var ref :| ref in c.owners && PausedThrough(after, ref);
      assert !PausedThrough(owners, ref);
      PauserIsIndexed(items, c, after, current.name);
    }
  }

  /** Creating or deleting a Cluster wakes every OpenStackCluster whose pause it changes, too. */
  lemma NoLostWakeUpOnCreateOrDelete(items: seq<Cluster>, c: Cluster, owners: map<string, Owner>, o: Owner)
    requires c in items && o.name !in owners
    requires Paused(owners, c) != Paused(owners[o.name := o], c)
    ensures c.name in Matching(items, OwnerIndexKey(o.name, o.uid))
  {
    var with_ := owners[o.name := o];
    assert forall ref :: PausedThrough(owners, ref) ==> PausedThrough(with_, ref);
    var ref :| ref in c.owners && PausedThrough(with_, ref);
    assert !PausedThrough(owners, ref);
    PauserIsIndexed(items, c, with_, o.name);
  }

  // ---------- other references to the identity Secret ----------

  /** `other` is a different object that names the same Secret. */
  predicate IsOtherReference(other: Cluster, c: Cluster) {
    other.uid != c.uid && other.identity.name == c.identity.name && other.identity.IsDirectSecret()
  }

  method HasOtherSecretReferences(items: seq<Cluster>, c: Cluster) returns (shared: bool)
    ensures shared <==> exists other :: other in items && IsOtherReference(other, c)
  {
    for i := 0 to |items|
      invariant forall k :: 0 <= k < i ==> !IsOtherReference(items[k], c)
    {
      var other := items[i];
      if other.uid == c.uid || other.identity.name != c.identity.name {
        continue;
      }
      if !other.identity.IsDirectSecret() {
        continue;
      }
      assert other in items && IsOtherReference(other, c);
      return true;
    }
    return false;
  }

  /** The direct list and the Secret index agree: another reference exists exactly when the index
      files a different object under this Secret's name. */
  lemma SecretIndexAgrees(items: seq<Cluster>, c: Cluster)
    requires c.identity.name != ""
    ensures (exists other :: other in items && IsOtherReference(other, c))
       <==> (exists other :: other in items && other.uid != c.uid && c.identity.name in IdentitySecretKeys(other))
  {
    forall other | other in items && IsOtherReference(other, c)
      ensures c.identity.name in IdentitySecretKeys(other)
    {
    }
    forall other | other in items && other.uid != c.uid && c.identity.name in IdentitySecretKeys(other)
      ensures IsOtherReference(other, c)
    {
    }
  }

  /** By the fields: another UID, the same Secret name, and an identity that is a Secret by its kind
      or by default. */
  lemma OtherReferenceIff(other: Cluster, c: Cluster)
    ensures IsOtherReference(other, c)
       <==> other.uid != c.uid && other.identity.name == c.identity.name && (other.identity.kind == "" || other.identity.kind == "Secret")
  {
  }
}
