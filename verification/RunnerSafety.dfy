/** What one run may delete, whatever OpenStack answers. */
module RunnerSafety {
  import opened Results
  import opened Ownership
  import opened Runner

  predicate Enabled(kind: Kind, req: Request) {
    (kind == Snapshots || kind == Volumes) ==> req.deleteVolumes
  }

  function Order(kind: Kind): nat {
    match kind
    case FloatingIPs => 0
    case LoadBalancers => 1
    case SecurityGroups => 2
    case Snapshots => 3
    case Volumes => 4
  }

  predicate HasWork(kind: Kind, inv: Inventory, req: Request) {
    Enabled(kind, req) && Selected(kind, inv, req.clusterName) != []
  }

  /** The only kind a run may delete: the earliest enabled one that still owns something. */
  ghost predicate IsCurrentPhase(kind: Kind, inv: Inventory, req: Request) {
    HasWork(kind, inv, req) && forall k: Kind :: Order(k) < Order(kind) ==> !HasWork(k, inv, req)
  }

  /** The IDs sent in DELETEs, in the order they were sent. */
  function DeletedIDs(calls: seq<Call>): seq<string> {
    if calls == [] then []
    else (if calls[0].Delete? then [calls[0].id] else []) + DeletedIDs(calls[1..])
  }

  lemma {:induction false} DeletedIDsOfDeletes(kind: Kind, ids: seq<string>, calls: seq<Call>)
    requires |calls| <= |ids| && forall i :: 0 <= i < |calls| ==> calls[i] == Delete(kind, ids[i])
    ensures DeletedIDs(calls) == ids[..|calls|]
  {
    if calls != [] {
      DeletedIDsOfDeletes(kind, ids[1..], calls[1..]);
    }
  }

  /** The DELETE loop sends the selected IDs in order and stops at the first refusal only. */
  lemma {:induction false} IssueDeletesTrace(kind: Kind, ids: seq<string>, inv: Inventory, answers: nat -> Answer, n: nat)
    ensures var e := IssueDeletes(kind, ids, inv, answers, n);
      && |e.calls| <= |ids|
      && (forall i :: 0 <= i < |e.calls| ==> e.calls[i] == Delete(kind, ids[i]))
      && (forall m :: n <= m < n + |e.calls| - 1 ==> !answers(m).status.Refused?)
      && (e.result.Ok? ==> e.result == Ok(Waiting) && |e.calls| == |ids|)
      && (e.result.Ok? && ids != [] ==> !answers(n + |ids| - 1).status.Refused?)
      && (e.result.Err? ==> e.calls != [] && answers(n + |e.calls| - 1).status.Refused?
                            && e.result.error == DeleteFailed(kind, ids[|e.calls| - 1]))
    decreases |ids|
  {
    if ids != [] && !answers(n).status.Refused? {
      var inv1 := AfterDelete(inv, kind, ids[0], answers(n));
      IssueDeletesTrace(kind, ids[1..], inv1, answers, n + 1);
      var e, rest := IssueDeletes(kind, ids, inv, answers, n), IssueDeletes(kind, ids[1..], inv1, answers, n + 1);
      assert e.calls == [Delete(kind, ids[0])] + rest.calls;
    }
  }

  lemma DeletePhaseTrace(kind: Kind, ids: seq<string>, inv: Inventory, answers: nat -> Answer, n: nat)
    ensures var e := DeletePhase(kind, ids, inv, answers, n);
      && DeletedIDs(e.calls) <= ids
      && (forall c :: c in e.calls ==> c.Delete? && c.kind == kind && c.id in ids)
      && e.result != Ok(Complete)
      && (e.result.Ok? ==> DeletedIDs(e.calls) == ids)
      && (e.result.Err? && e.result.error.DeleteFailed? ==>
            e.calls != [] && DeletedIDs(e.calls) != [] && answers(n + |e.calls| - 1).status.Refused?
            && e.result.error.kind == kind && DeletedIDs(e.calls)[|DeletedIDs(e.calls)| - 1] == e.result.error.id)
      && (e.result.Err? && !e.result.error.DeleteFailed? ==> e.calls == [])
  {
    hide IssueDeletes, DeletedIDs;
    DeletedIDsOfDeletes(kind, [], []);
    if "" !in ids {
      IssueDeletesTrace(kind, ids, inv, answers, n);
      DeletedIDsOfDeletes(kind, ids, IssueDeletes(kind, ids, inv, answers, n).calls);
    }
  }

  /** What every run guarantees about its own trace. */
  ghost predicate SafeEffect(e: Effect, inv: Inventory, req: Request, answers: nat -> Answer, n: nat) {
    var ids := DeletedIDs(e.calls);
    && (forall c :: c in e.calls && c.Delete? ==>
          IsCurrentPhase(c.kind, inv, req) && c.id in Selected(c.kind, inv, req.clusterName))
    && (ids != [] ==> exists k :: IsCurrentPhase(k, inv, req) && ids <= Selected(k, inv, req.clusterName))
    && (e.result == Ok(Waiting) ==> exists k :: IsCurrentPhase(k, inv, req) && ids == Selected(k, inv, req.clusterName))
    && (e.result == Ok(Complete) ==> forall k: Kind :: !HasWork(k, inv, req))
    && (e.result.Err? && e.result.error.DeleteFailed? ==>
          e.calls != [] && ids != [] && answers(n + |e.calls| - 1).status.Refused? && ids[|ids| - 1] == e.result.error.id)
    && (e.result.Err? && !e.result.error.DeleteFailed? ==> forall c :: c in e.calls ==> c.List?)
  }

  lemma ListedIDs(kind: Kind, calls: seq<Call>)
    ensures DeletedIDs([List(kind)] + calls) == DeletedIDs(calls)
    ensures forall c :: c in [List(kind)] + calls <==> c == List(kind) || c in calls
  {
    assert ([List(kind)] + calls)[1..] == calls;
  }

  lemma AfterListIsSafe(kind: Kind, e: Effect, inv: Inventory, req: Request, answers: nat -> Answer, n: nat)
    requires SafeEffect(e, inv, req, answers, n + 1)
    ensures SafeEffect(After([List(kind)], e), inv, req, answers, n)
  {
    hide DeletedIDs, IsCurrentPhase, HasWork, Selected;
    ListedIDs(kind, e.calls);
    assert n + |[List(kind)] + e.calls| - 1 == n + 1 + |e.calls| - 1;
  }

  lemma DeletePhaseIsSafe(kind: Kind, inv: Inventory, req: Request, answers: nat -> Answer, n: nat)
    requires IsCurrentPhase(kind, inv, req)
    ensures SafeEffect(DeletePhase(kind, Selected(kind, inv, req.clusterName), inv, answers, n), inv, req, answers, n)
  {
    DeletePhaseTrace(kind, Selected(kind, inv, req.clusterName), inv, answers, n);
  }

  lemma PhaseIsSafe(kind: Kind, inv: Inventory, req: Request, answers: nat -> Answer, n: nat, next: Effect)
    requires Enabled(kind, req) && forall k: Kind :: Order(k) < Order(kind) ==> !HasWork(k, inv, req)
    requires !HasWork(kind, inv, req) ==> SafeEffect(next, inv, req, answers, n + 1)
    ensures SafeEffect(Phase(kind, req, inv, answers, n, next), inv, req, answers, n)
  {
    var rest :=
      if !Listed(answers, n) then Effect([], inv, Err(ListFailed(kind)))
      else if HasWork(kind, inv, req) then DeletePhase(kind, Selected(kind, inv, req.clusterName), inv, answers, n + 1)
      else next;
    if HasWork(kind, inv, req) {
      DeletePhaseIsSafe(kind, inv, req, answers, n + 1);
    }
    AfterListIsSafe(kind, rest, inv, req, answers, n);
  }

  lemma DoneIsSafe(inv: Inventory, req: Request, answers: nat -> Answer, n: nat)
    requires forall k: Kind :: !HasWork(k, inv, req)
    ensures SafeEffect(Effect([], inv, Ok(Complete)), inv, req, answers, n)
  {
  }

  lemma VolumesAreLast(inv: Inventory, req: Request)
    requires forall k: Kind :: Order(k) < Order(Volumes) ==> !HasWork(k, inv, req)
    ensures !HasWork(Volumes, inv, req) ==> forall k: Kind :: !HasWork(k, inv, req)
  {
  }

  lemma VolumePhasesAreSafe(inv: Inventory, req: Request, answers: nat -> Answer, n: nat)
    requires forall k: Kind :: Order(k) < Order(Snapshots) ==> !HasWork(k, inv, req)
    ensures SafeEffect(VolumePhases(req, inv, answers, n), inv, req, answers, n)
  {
    var done := Effect([], inv, Ok(Complete));
    if !req.deleteVolumes {
      DoneIsSafe(inv, req, answers, n);
    } else {
      hide SafeEffect, Phase, Selected;
      if !HasWork(Snapshots, inv, req) {
        VolumesAreLast(inv, req);
        if !HasWork(Volumes, inv, req) {
          DoneIsSafe(inv, req, answers, n + 2);
        }
        PhaseIsSafe(Volumes, inv, req, answers, n + 1, done);
      }
      PhaseIsSafe(Snapshots, inv, req, answers, n, Phase(Volumes, req, inv, answers, n + 1, done));
    }
  }

  lemma LaterPhasesAreSafe(inv: Inventory, req: Request, answers: nat -> Answer, n: nat)
    requires !HasWork(FloatingIPs, inv, req) && !HasWork(LoadBalancers, inv, req)
    ensures SafeEffect(LaterPhases(req, inv, answers, n), inv, req, answers, n)
  {
    hide SafeEffect, Phase, VolumePhases, Selected;
    if !HasWork(SecurityGroups, inv, req) {
      VolumePhasesAreSafe(inv, req, answers, n + 1);
    }
    PhaseIsSafe(SecurityGroups, inv, req, answers, n, VolumePhases(req, inv, answers, n + 1));
  }

  lemma FaultsSendNothing(kind: Kind, rs: seq<Resource>, cluster: string)
    ensures var f := FirstFault(kind, rs, cluster);
      f.Some? ==> !f.value.DeleteFailed?
  {
  }

  /** Phase safety and fail-closed behaviour of every run: all DELETEs are of the one current
      kind and are its selected IDs in order; a failure that is not a refused DELETE has sent
      none; Waiting has sent them all; Complete leaves no enabled selector with work. */
  lemma RunIsSafe(req: Request, inv: Inventory, answers: nat -> Answer, n: nat)
    ensures SafeEffect(RunSpec(req, inv, answers, n), inv, req, answers, n)
  {
    if req.clusterName == "" || !Listed(answers, n) {
      return;
    }
    var rest :=
      if !Listed(answers, n + 1) then Effect([], inv, Err(ListFailed(FloatingIPs)))
      else if Preflight(inv, req.clusterName).Err? then Effect([], inv, Err(Preflight(inv, req.clusterName).error))
      else if HasWork(FloatingIPs, inv, req) then
        DeletePhase(FloatingIPs, Selected(FloatingIPs, inv, req.clusterName), inv, answers, n + 2)
      else if HasWork(LoadBalancers, inv, req) then
        DeletePhase(LoadBalancers, Selected(LoadBalancers, inv, req.clusterName), inv, answers, n + 2)
      else LaterPhases(req, inv, answers, n + 2);
    assert SafeEffect(rest, inv, req, answers, n + 2) by {
      FaultsSendNothing(LoadBalancers, inv.loadBalancers, req.clusterName);
      FaultsSendNothing(FloatingIPs, inv.floatingIPs, req.clusterName);
      if HasWork(FloatingIPs, inv, req) {
        DeletePhaseIsSafe(FloatingIPs, inv, req, answers, n + 2);
      } else if HasWork(LoadBalancers, inv, req) {
        DeletePhaseIsSafe(LoadBalancers, inv, req, answers, n + 2);
      } else {
        LaterPhasesAreSafe(inv, req, answers, n + 2);
      }
    }
    AfterListIsSafe(FloatingIPs, rest, inv, req, answers, n + 1);
    AfterListIsSafe(LoadBalancers, After([List(FloatingIPs)], rest), inv, req, answers, n);
    assert RunSpec(req, inv, answers, n).calls == [List(LoadBalancers)] + ([List(FloatingIPs)] + rest.calls);
  }

  /** Every inventory the request needs was listed without an error. */
  predicate AllListed(req: Request, answers: nat -> Answer, n: nat) {
    && Listed(answers, n) && Listed(answers, n + 1) && Listed(answers, n + 2)
    && (req.deleteVolumes ==> Listed(answers, n + 3) && Listed(answers, n + 4))
  }

  /** Nothing in these inventories blocks a run, and no enabled selector finds anything. */
  predicate Drained(inv: Inventory, req: Request) {
    && req.clusterName != "" && Preflight(inv, req.clusterName).Ok?
    && !HasWork(FloatingIPs, inv, req) && !HasWork(LoadBalancers, inv, req) && !HasWork(SecurityGroups, inv, req)
    && !HasWork(Snapshots, inv, req) && !HasWork(Volumes, inv, req)
  }

  /** Complete means exactly: every needed inventory was read, nothing blocked, nothing is owned. */
  lemma CompleteIff(req: Request, inv: Inventory, answers: nat -> Answer, n: nat)
    ensures RunSpec(req, inv, answers, n).result == Ok(Complete)
       <==> AllListed(req, answers, n) && Drained(inv, req)
    ensures Drained(inv, req) ==> forall k: Kind :: !HasWork(k, inv, req)
  {
    RunIsSafe(req, inv, answers, n);
    forall k: Kind, ids, m: nat
      ensures DeletePhase(k, ids, inv, answers, m).result != Ok(Complete)
    {
      DeletePhaseTrace(k, ids, inv, answers, m);
    }
    assert HasWork(FloatingIPs, inv, req) || HasWork(LoadBalancers, inv, req) || HasWork(SecurityGroups, inv, req)
        || HasWork(Snapshots, inv, req) || HasWork(Volumes, inv, req) || forall k: Kind :: !HasWork(k, inv, req);
  }

  // ---------- membership in a selection ----------

  lemma {:induction false} SelectedIff(kind: Kind, rs: seq<Resource>, ports: set<string>, cluster: string, id: string)
    ensures id in SelectIDs(kind, rs, ports, cluster)
       <==> exists r :: r in rs && Deletable(kind, r, ports, cluster) && r.id == id
    decreases |rs|
  {
    if rs != [] {
      var front, last := rs[..|rs| - 1], rs[|rs| - 1];
      SelectedIff(kind, front, ports, cluster, id);
      assert rs == front + [last];
    }
  }

  ghost predicate DistinctIDs(rs: seq<Resource>) {
    forall i, j :: 0 <= i < j < |rs| ==> rs[i].id != rs[j].id
  }

  /** A resource the ownership rule does not select is never the target of a DELETE. */
  lemma UnselectedIsNeverDeleted(kind: Kind, r: Resource, req: Request, inv: Inventory, answers: nat -> Answer, n: nat)
    requires r in inv.Of(kind) && DistinctIDs(inv.Of(kind))
    requires !Deletable(kind, r, ProtectedPorts(inv.loadBalancers, req.clusterName), req.clusterName)
    ensures Delete(kind, r.id) !in RunSpec(req, inv, answers, n).calls
  {
    RunIsSafe(req, inv, answers, n);
    SelectedIff(kind, inv.Of(kind), ProtectedPorts(inv.loadBalancers, req.clusterName), req.clusterName, r.id);
  }

  /** Cross-cluster safety, with no assumption on the names: a load balancer that serves a
      Service of cluster `c2` survives every run for any other cluster `c1`. */
  lemma OtherClustersLoadBalancerSurvives(lb: Resource, c2: string, ns: string, svc: string,
                                          req: Request, inv: Inventory, answers: nat -> Answer, n: nat)
    requires lb in inv.loadBalancers && lb.LoadBalancer? && DistinctIDs(inv.loadBalancers)
    requires IsComponent(ns) && IsComponent(svc) && ServiceTag(c2, ns, svc) in lb.tags
    requires req.clusterName != c2
    ensures Delete(LoadBalancers, lb.id) !in RunSpec(req, inv, answers, n).calls
  {
    OtherClustersTagIsForeign(lb, req.clusterName, c2, ns, svc);
    UnselectedIsNeverDeleted(LoadBalancers, lb, req, inv, answers, n);
  }

  /** A floating IP on the VIP port of a protected load balancer is never deleted. */
  lemma SharedVIPIsProtected(lb: Resource, fip: Resource, req: Request, inv: Inventory, answers: nat -> Answer, n: nat)
    requires lb in inv.loadBalancers && LoadBalancerMatches(lb, req.clusterName) && IsForeign(lb, req.clusterName)
    requires fip in inv.floatingIPs && fip.FloatingIP? && fip.attachedPortID == lb.vipPortID
    requires DistinctIDs(inv.floatingIPs)
    ensures Delete(FloatingIPs, fip.id) !in RunSpec(req, inv, answers, n).calls
  {
    UnselectedIsNeverDeleted(FloatingIPs, fip, req, inv, answers, n);
  }

  lemma {:induction false} FirstFaultIff(kind: Kind, rs: seq<Resource>, cluster: string)
    ensures FirstFault(kind, rs, cluster).Some? <==> exists r :: r in rs && Fault(kind, r, cluster).Some?
    decreases |rs|
  {
    if rs != [] {
      FirstFaultIff(kind, rs[..|rs| - 1], cluster);
      assert rs == rs[..|rs| - 1] + [rs[|rs| - 1]];
    }
  }

  /** A protected load balancer without a VIP port blocks the run before any DELETE. */
  lemma UnknownVIPBlocksDeletion(lb: Resource, req: Request, inv: Inventory, answers: nat -> Answer, n: nat)
    requires lb in inv.loadBalancers && LoadBalancerMatches(lb, req.clusterName) && IsForeign(lb, req.clusterName)
    requires lb.vipPortID == ""
    ensures var e := RunSpec(req, inv, answers, n);
      e.result.Err? && !e.result.error.DeleteFailed? && forall c :: c in e.calls ==> c.List?
  {
    RunIsSafe(req, inv, answers, n);
    FirstFaultIff(LoadBalancers, inv.loadBalancers, req.clusterName);
    FaultsSendNothing(LoadBalancers, inv.loadBalancers, req.clusterName);
    assert Fault(LoadBalancers, lb, req.clusterName).Some?;
  }

  /** Once a run gets past its preflight, an unattached floating IP is never protected. */
  lemma UnattachedIsNeverProtected(fip: Resource, inv: Inventory, cluster: string)
    requires Preflight(inv, cluster).Ok?
    requires fip in inv.floatingIPs && FloatingIPMatches(fip, cluster) && fip.attachedPortID == ""
    ensures fip.id in Selected(FloatingIPs, inv, cluster)
  {
    var ports := ProtectedPorts(inv.loadBalancers, cluster);
    FirstFaultIff(LoadBalancers, inv.loadBalancers, cluster);
    forall lb | lb in inv.loadBalancers && LoadBalancerMatches(lb, cluster) && IsForeign(lb, cluster)
      ensures lb.vipPortID != ""
    {
      assert Fault(LoadBalancers, lb, cluster).None?;
    }
    SelectedIff(FloatingIPs, inv.floatingIPs, ports, cluster, fip.id);
  }

  // ---------- what a run leaves behind, whatever OpenStack answers ----------

  lemma {:induction false} RemoveIDKeeps(rs: seq<Resource>, id: string, r: Resource)
    requires r in rs && r.id != id
    ensures r in RemoveID(rs, id)
    decreases |rs|
  {
    if r != rs[|rs| - 1] {
      assert rs == rs[..|rs| - 1] + [rs[|rs| - 1]];
      RemoveIDKeeps(rs[..|rs| - 1], id, r);
    }
  }

  lemma {:induction false} IssueDeletesKeeps(kind: Kind, ids: seq<string>, inv: Inventory, answers: nat -> Answer, n: nat,
                                             k: Kind, r: Resource)
    requires r in inv.Of(k) && (k == kind ==> r.id !in ids)
    ensures r in IssueDeletes(kind, ids, inv, answers, n).inv.Of(k)
    decreases |ids|
  {
    if ids != [] {
      if k == kind {
        RemoveIDKeeps(inv.Of(k), ids[0], r);
      }
      IssueDeletesKeeps(kind, ids[1..], AfterDelete(inv, kind, ids[0], answers(n)), answers, n + 1, k, r);
    }
  }

  /** A run changes the inventory through the DELETE phase of one kind, or not at all. */
  lemma RunTouchesOneKind(req: Request, inv: Inventory, answers: nat -> Answer, n: nat) returns (kind: Kind, m: nat)
    ensures var left := RunSpec(req, inv, answers, n).inv;
      left == inv || left == DeletePhase(kind, Selected(kind, inv, req.clusterName), inv, answers, m).inv
  {
    var c := req.clusterName;
    kind, m :=
      if Selected(FloatingIPs, inv, c) != [] then FloatingIPs else if Selected(LoadBalancers, inv, c) != [] then LoadBalancers
      else if Selected(SecurityGroups, inv, c) != [] then SecurityGroups
      else if Selected(Snapshots, inv, c) != [] then Snapshots else Volumes,
      if Selected(FloatingIPs, inv, c) != [] || Selected(LoadBalancers, inv, c) != [] then n + 2
      else if Selected(SecurityGroups, inv, c) != [] then n + 3
      else if Selected(Snapshots, inv, c) != [] then n + 4 else n + 5;
  }

  /** Conservation for any answers, lost or late ones included: a run keeps every resource that
      the ownership rule does not select. */
  lemma UnownedResourceSurvives(k: Kind, r: Resource, req: Request, inv: Inventory, answers: nat -> Answer, n: nat)
    requires r in inv.Of(k) && DistinctIDs(inv.Of(k))
    requires !Deletable(k, r, ProtectedPorts(inv.loadBalancers, req.clusterName), req.clusterName)
    ensures r in RunSpec(req, inv, answers, n).inv.Of(k)
  {
    SelectedIff(k, inv.Of(k), ProtectedPorts(inv.loadBalancers, req.clusterName), req.clusterName, r.id);
    var kind, m := RunTouchesOneKind(req, inv, answers, n);
    if "" !in Selected(kind, inv, req.clusterName) {
      IssueDeletesKeeps(kind, Selected(kind, inv, req.clusterName), inv, answers, m, k, r);
    }
  }
}
