/** Iterated runs against a cloud that honours DELETEs: they finish, and remove exactly what
    the cluster owns. */
module Convergence {
  import opened Results
  import opened Ownership
  import opened Runner
  import opened RunnerSafety

  /** What is left of an inventory when exactly its deletable resources are gone. */
  function Survivors(kind: Kind, rs: seq<Resource>, ports: set<string>, cluster: string): seq<Resource> {
    if rs == [] then []
    else
      var last := rs[|rs| - 1];
      Survivors(kind, rs[..|rs| - 1], ports, cluster)
      + (if Deletable(kind, last, ports, cluster) then [] else [last])
  }

  function Without(rs: seq<Resource>, ids: seq<string>): seq<Resource> {
    if rs == [] then []
    else Without(rs[..|rs| - 1], ids) + (if rs[|rs| - 1].id in ids then [] else [rs[|rs| - 1]])
  }

  /** One kind cleaned, the rest of the inventory untouched. */
  function CleanKind(kind: Kind, inv: Inventory, cluster: string): Inventory {
    inv.With(kind, Survivors(kind, inv.Of(kind), ProtectedPorts(inv.loadBalancers, cluster), cluster))
  }

  function CleanIfEnabled(kind: Kind, inv: Inventory, req: Request): seq<Resource> {
    if Enabled(kind, req)
    then Survivors(kind, inv.Of(kind), ProtectedPorts(inv.loadBalancers, req.clusterName), req.clusterName)
    else inv.Of(kind)
  }

  /** The initial inventory minus exactly the owned, unprotected, policy-enabled resources. */
  function Remainder(inv: Inventory, req: Request): Inventory {
    Inventory(CleanIfEnabled(FloatingIPs, inv, req), CleanIfEnabled(LoadBalancers, inv, req),
              CleanIfEnabled(SecurityGroups, inv, req), CleanIfEnabled(Snapshots, inv, req),
              CleanIfEnabled(Volumes, inv, req))
  }

  /** Exact conservation: a resource is missing from the final inventory exactly when its kind is
      enabled and the ownership rule, read on the initial inventory, selects it. */
  lemma CleanedExactly(inv: Inventory, req: Request, kind: Kind, r: Resource)
    ensures r in Remainder(inv, req).Of(kind)
       <==> r in inv.Of(kind)
            && !(Enabled(kind, req)
                 && Deletable(kind, r, ProtectedPorts(inv.loadBalancers, req.clusterName), req.clusterName))
  {
    SurvivorsAre(kind, inv.Of(kind), ProtectedPorts(inv.loadBalancers, req.clusterName), req.clusterName);
  }

  function Count(b: bool): nat {
    if b then 1 else 0
  }

  /** How many enabled kinds still hold something to delete. */
  function PhaseCount(inv: Inventory, req: Request): (n: nat)
    ensures n <= if req.deleteVolumes then 5 else 3
  {
    Count(HasWork(FloatingIPs, inv, req)) + Count(HasWork(LoadBalancers, inv, req))
    + Count(HasWork(SecurityGroups, inv, req)) + Count(HasWork(Snapshots, inv, req)) + Count(HasWork(Volumes, inv, req))
  }

  /** Nothing in the inventory blocks a run, and IDs identify resources. */
  ghost predicate Ready(inv: Inventory, req: Request) {
    && req.clusterName != "" && Preflight(inv, req.clusterName).Ok?
    && (forall k: Kind :: DistinctIDs(inv.Of(k)))
    && (forall k: Kind :: "" !in Selected(k, inv, req.clusterName))
  }

  /** OpenStack accepts and applies every call from the n-th on. */
  ghost predicate Honours(answers: nat -> Answer, n: nat) {
    forall m :: n <= m ==> answers(m) == Answer(Accepted, true)
  }

  // ---------- removing by ID removes exactly the owned ----------

  lemma {:induction false} RemoveThenWithout(rs: seq<Resource>, id: string, ids: seq<string>)
    ensures Without(RemoveID(rs, id), ids) == Without(rs, [id] + ids)
    decreases |rs|
  {
    if rs != [] {
      var front, last := rs[..|rs| - 1], rs[|rs| - 1];
      RemoveThenWithout(front, id, ids);
      var kept := RemoveID(front, id);
      assert RemoveID(rs, id) == if last.id == id then kept else kept + [last];
      assert last.id != id ==> (kept + [last])[..|kept|] == kept;
    }
  }

  lemma {:induction false} WithoutNothing(rs: seq<Resource>)
    ensures Without(rs, []) == rs
    decreases |rs|
  {
    if rs != [] {
      WithoutNothing(rs[..|rs| - 1]);
    }
  }

  lemma {:induction false} HonouredDeletes(kind: Kind, ids: seq<string>, inv: Inventory, answers: nat -> Answer, n: nat)
    requires Honours(answers, n)
    ensures IssueDeletes(kind, ids, inv, answers, n).inv == inv.With(kind, Without(inv.Of(kind), ids))
    ensures IssueDeletes(kind, ids, inv, answers, n).result == Ok(Waiting)
    decreases |ids|
  {
    if ids == [] {
      WithoutNothing(inv.Of(kind));
    } else {
      var inv1 := inv.With(kind, RemoveID(inv.Of(kind), ids[0]));
      HonouredDeletes(kind, ids[1..], inv1, answers, n + 1);
      RemoveThenWithout(inv.Of(kind), ids[0], ids[1..]);
      assert [ids[0]] + ids[1..] == ids;
    }
  }

  lemma {:induction false} WithoutSelected(kind: Kind, rs: seq<Resource>, ids: seq<string>, ports: set<string>, cluster: string)
    requires forall r :: r in rs ==> (r.id in ids <==> Deletable(kind, r, ports, cluster))
    ensures Without(rs, ids) == Survivors(kind, rs, ports, cluster)
    decreases |rs|
  {
    if rs != [] {
      assert rs[|rs| - 1] in rs;
      WithoutSelected(kind, rs[..|rs| - 1], ids, ports, cluster);
    }
  }

  lemma SelectedAreTheDeletable(kind: Kind, rs: seq<Resource>, ports: set<string>, cluster: string)
    requires DistinctIDs(rs)
    ensures Without(rs, SelectIDs(kind, rs, ports, cluster)) == Survivors(kind, rs, ports, cluster)
  {
    var ids := SelectIDs(kind, rs, ports, cluster);
    forall r | r in rs
      ensures r.id in ids <==> Deletable(kind, r, ports, cluster)
    {
      SelectedIff(kind, rs, ports, cluster, r.id);
    }
    WithoutSelected(kind, rs, ids, ports, cluster);
  }

  // ---------- what cleaning one kind preserves ----------

  lemma {:induction false} SurvivorsAre(kind: Kind, rs: seq<Resource>, ports: set<string>, cluster: string)
    ensures forall r :: r in Survivors(kind, rs, ports, cluster) <==> r in rs && !Deletable(kind, r, ports, cluster)
    decreases |rs|
  {
    if rs != [] {
      SurvivorsAre(kind, rs[..|rs| - 1], ports, cluster);
      assert rs == rs[..|rs| - 1] + [rs[|rs| - 1]];
    }
  }

  lemma {:induction false} SurvivorsAreClean(kind: Kind, rs: seq<Resource>, ports: set<string>, cluster: string)
    ensures SelectIDs(kind, Survivors(kind, rs, ports, cluster), ports, cluster) == []
    ensures Survivors(kind, Survivors(kind, rs, ports, cluster), ports, cluster) == Survivors(kind, rs, ports, cluster)
    decreases |rs|
  {
    if rs != [] {
      var front, last := rs[..|rs| - 1], rs[|rs| - 1];
      SurvivorsAreClean(kind, front, ports, cluster);
      var kept := Survivors(kind, front, ports, cluster);
      assert Survivors(kind, rs, ports, cluster) == if Deletable(kind, last, ports, cluster) then kept else kept + [last];
      assert (kept + [last])[..|kept|] == kept;
    }
  }

  lemma {:induction false} SurvivorsAreDistinct(kind: Kind, rs: seq<Resource>, ports: set<string>, cluster: string)
    requires DistinctIDs(rs)
    ensures DistinctIDs(Survivors(kind, rs, ports, cluster))
    decreases |rs|
  {
    if rs != [] {
      var front, last := rs[..|rs| - 1], rs[|rs| - 1];
      SurvivorsAreDistinct(kind, front, ports, cluster);
      SurvivorsAre(kind, front, ports, cluster);
      var kept := Survivors(kind, front, ports, cluster);
      assert forall i :: 0 <= i < |kept| ==> kept[i] in front;
    }
  }

  lemma PortsSurvive(lbs: seq<Resource>, ports: set<string>, cluster: string)
    ensures ProtectedPorts(Survivors(LoadBalancers, lbs, ports, cluster), cluster) == ProtectedPorts(lbs, cluster)
  {
    SurvivorsAre(LoadBalancers, lbs, ports, cluster);
  }

  lemma FewerFaults(kind: Kind, all: Kind, rs: seq<Resource>, ports: set<string>, cluster: string)
    requires FirstFault(all, rs, cluster).None?
    ensures FirstFault(all, Survivors(kind, rs, ports, cluster), cluster).None?
  {
    FirstFaultIff(all, rs, cluster);
    FirstFaultIff(all, Survivors(kind, rs, ports, cluster), cluster);
    SurvivorsAre(kind, rs, ports, cluster);
  }

  /** Cleaning a kind leaves the protected ports, hence every ownership decision, as it was. */
  lemma CleaningKeepsPorts(kind: Kind, inv: Inventory, cluster: string)
    ensures ProtectedPorts(CleanKind(kind, inv, cluster).loadBalancers, cluster) == ProtectedPorts(inv.loadBalancers, cluster)
  {
    PortsSurvive(inv.loadBalancers, ProtectedPorts(inv.loadBalancers, cluster), cluster);
    assert CleanKind(kind, inv, cluster).loadBalancers == CleanKind(kind, inv, cluster).Of(LoadBalancers);
    assert inv.loadBalancers == inv.Of(LoadBalancers);
  }

  lemma CleaningOneKind(kind: Kind, inv: Inventory, req: Request, k: Kind)
    requires DistinctIDs(inv.Of(k))
    ensures var next := CleanKind(kind, inv, req.clusterName);
      && DistinctIDs(next.Of(k))
      && Selected(k, next, req.clusterName) == (if k == kind then [] else Selected(k, inv, req.clusterName))
      && (Enabled(kind, req) ==> CleanIfEnabled(k, next, req) == CleanIfEnabled(k, inv, req))
  {
    var ports := ProtectedPorts(inv.loadBalancers, req.clusterName);
    CleaningKeepsPorts(kind, inv, req.clusterName);
    SurvivorsAreClean(kind, inv.Of(kind), ports, req.clusterName);
    if k == kind {
      SurvivorsAreDistinct(kind, inv.Of(kind), ports, req.clusterName);
    }
  }

  lemma CleaningOneKindCounts(kind: Kind, inv: Inventory, req: Request, k: Kind)
    requires DistinctIDs(inv.Of(k)) && HasWork(kind, inv, req)
    ensures var next := CleanKind(kind, inv, req.clusterName);
      && Count(HasWork(k, next, req)) == Count(HasWork(k, inv, req)) - Count(k == kind)
      && CleanIfEnabled(k, next, req) == CleanIfEnabled(k, inv, req)
  {
    CleaningOneKind(kind, inv, req, k);
  }

  lemma CleaningKeepsPreflight(kind: Kind, inv: Inventory, cluster: string)
    requires Preflight(inv, cluster).Ok?
    ensures Preflight(CleanKind(kind, inv, cluster), cluster).Ok?
  {
    var ports := ProtectedPorts(inv.loadBalancers, cluster);
    if kind == LoadBalancers || kind == FloatingIPs {
      FewerFaults(kind, kind, inv.Of(kind), ports, cluster);
    }
  }

  /** Cleaning a kind keeps the cloud ready, with one phase less to go and the same final
      inventory. */
  lemma CleaningAdvances(kind: Kind, inv: Inventory, req: Request)
    requires Ready(inv, req) && HasWork(kind, inv, req)
    ensures Ready(CleanKind(kind, inv, req.clusterName), req)
    ensures PhaseCount(CleanKind(kind, inv, req.clusterName), req) == PhaseCount(inv, req) - 1
    ensures Remainder(CleanKind(kind, inv, req.clusterName), req) == Remainder(inv, req)
  {
    CleaningKeepsPreflight(kind, inv, req.clusterName);
    var next := CleanKind(kind, inv, req.clusterName);
    forall k: Kind
      ensures DistinctIDs(next.Of(k)) && "" !in Selected(k, next, req.clusterName)
    {
      CleaningOneKind(kind, inv, req, k);
    }
    CleaningOneKindCounts(kind, inv, req, FloatingIPs);
    CleaningOneKindCounts(kind, inv, req, LoadBalancers);
    CleaningOneKindCounts(kind, inv, req, SecurityGroups);
    CleaningOneKindCounts(kind, inv, req, Snapshots);
    CleaningOneKindCounts(kind, inv, req, Volumes);
  }

  /** Once no enabled kind has work, cleaning changes nothing. */
  lemma NothingLeftToClean(inv: Inventory, req: Request)
    requires forall k: Kind :: !HasWork(k, inv, req)
    ensures Remainder(inv, req) == inv
  {
    forall k: Kind
      ensures CleanIfEnabled(k, inv, req) == inv.Of(k)
    {
      if Enabled(k, req) {
        assert !HasWork(k, inv, req);
        EmptySelectionKeepsAll(k, inv.Of(k), ProtectedPorts(inv.loadBalancers, req.clusterName), req.clusterName);
      }
    }
  }

  lemma {:induction false} EmptySelectionKeepsAll(kind: Kind, rs: seq<Resource>, ports: set<string>, cluster: string)
    requires SelectIDs(kind, rs, ports, cluster) == []
    ensures Survivors(kind, rs, ports, cluster) == rs
    decreases |rs|
  {
    if rs != [] {
      EmptySelectionKeepsAll(kind, rs[..|rs| - 1], ports, cluster);
    }
  }

  lemma HonouredPhase(kind: Kind, req: Request, inv: Inventory, answers: nat -> Answer, n: nat)
    requires Ready(inv, req) && Honours(answers, n)
    ensures var e := DeletePhase(kind, Selected(kind, inv, req.clusterName), inv, answers, n);
      e.inv == CleanKind(kind, inv, req.clusterName) && e.result == Ok(Waiting)
  {
    HonouredDeletes(kind, Selected(kind, inv, req.clusterName), inv, answers, n);
    SelectedAreTheDeletable(kind, inv.Of(kind), ProtectedPorts(inv.loadBalancers, req.clusterName), req.clusterName);
  }

  /** A listed phase is its own DELETE phase if it has work, and the next one if it has not. */
  lemma ListedPhase(kind: Kind, req: Request, inv: Inventory, answers: nat -> Answer, n: nat, next: Effect)
    requires Listed(answers, n)
    ensures var e, ids := Phase(kind, req, inv, answers, n, next), Selected(kind, inv, req.clusterName);
      var rest := if ids != [] then DeletePhase(kind, ids, inv, answers, n + 1) else next;
      e.inv == rest.inv && e.result == rest.result
  {
    hide SelectIDs, DeletePhase;
  }

  /** With every inventory listed, a run is the DELETE phase of its current kind. */
  lemma RunIsItsCurrentPhase(kind: Kind, req: Request, inv: Inventory, answers: nat -> Answer, n: nat) returns (m: nat)
    requires req.clusterName != "" && AllListed(req, answers, n) && Preflight(inv, req.clusterName).Ok?
    requires IsCurrentPhase(kind, inv, req)
    ensures n <= m
    ensures var e := DeletePhase(kind, Selected(kind, inv, req.clusterName), inv, answers, m);
      RunSpec(req, inv, answers, n).inv == e.inv && RunSpec(req, inv, answers, n).result == e.result
  {
    hide Phase, DeletePhase, Selected, FirstFault;
    var done := Effect([], inv, Ok(Complete));
    ListedPhase(SecurityGroups, req, inv, answers, n + 2, VolumePhases(req, inv, answers, n + 3));
    if req.deleteVolumes {
      ListedPhase(Snapshots, req, inv, answers, n + 3, Phase(Volumes, req, inv, answers, n + 4, done));
      ListedPhase(Volumes, req, inv, answers, n + 4, done);
    }
    m := n + match kind
      case FloatingIPs => 2
      case LoadBalancers => 2
      case SecurityGroups => 3
      case Snapshots => 4
      case Volumes => 5;
    assert Order(FloatingIPs) < Order(kind) ==> !HasWork(FloatingIPs, inv, req);
    assert Order(LoadBalancers) < Order(kind) ==> !HasWork(LoadBalancers, inv, req);
    assert Order(SecurityGroups) < Order(kind) ==> !HasWork(SecurityGroups, inv, req);
    assert Order(Snapshots) < Order(kind) ==> !HasWork(Snapshots, inv, req);
  }

  lemma CompleteRunChangesNothing(req: Request, inv: Inventory, answers: nat -> Answer, n: nat)
    requires RunSpec(req, inv, answers, n).result == Ok(Complete)
    ensures RunSpec(req, inv, answers, n).inv == inv
  {
    CompleteIff(req, inv, answers, n);
    assert !HasWork(FloatingIPs, inv, req) && !HasWork(LoadBalancers, inv, req) && !HasWork(SecurityGroups, inv, req);
    assert !HasWork(Snapshots, inv, req) && !HasWork(Volumes, inv, req);
  }

  /** One run against an honouring cloud: it cleans the current phase and waits, or, with
      nothing left to do, completes and changes nothing. */
  lemma HonouredRun(req: Request, inv: Inventory, answers: nat -> Answer, n: nat)
    requires Ready(inv, req) && Honours(answers, n)
    ensures var e := RunSpec(req, inv, answers, n);
      && (PhaseCount(inv, req) == 0 ==> e.inv == inv && e.result == Ok(Complete))
      && (PhaseCount(inv, req) > 0 ==>
            (exists k :: IsCurrentPhase(k, inv, req) && e.inv == CleanKind(k, inv, req.clusterName))
            && e.result == Ok(Waiting))
  {
    assert forall m :: n <= m ==> Listed(answers, m);
    if PhaseCount(inv, req) == 0 {
      NoPhaseLeft(inv, req);
      CompleteIff(req, inv, answers, n);
      CompleteRunChangesNothing(req, inv, answers, n);
    } else {
      var kind := SomePhaseIsCurrent(inv, req);
      var m := RunIsItsCurrentPhase(kind, req, inv, answers, n);
      HonouredPhase(kind, req, inv, answers, m);
    }
  }

  lemma NoPhaseLeft(inv: Inventory, req: Request)
    requires PhaseCount(inv, req) == 0
    ensures forall k: Kind :: !HasWork(k, inv, req)
  {
    forall k: Kind
      ensures !HasWork(k, inv, req)
    {
      match k
      case FloatingIPs =>
      case LoadBalancers =>
      case SecurityGroups =>
      case Snapshots =>
      case Volumes =>
    }
  }

  lemma SomePhaseIsCurrent(inv: Inventory, req: Request) returns (kind: Kind)
    requires PhaseCount(inv, req) > 0
    ensures IsCurrentPhase(kind, inv, req)
  {
    kind :=
      if HasWork(FloatingIPs, inv, req) then FloatingIPs
      else if HasWork(LoadBalancers, inv, req) then LoadBalancers
      else if HasWork(SecurityGroups, inv, req) then SecurityGroups
      else if HasWork(Snapshots, inv, req) then Snapshots
      else Volumes;
  }

  /** Reconciliation's loop: run until Complete. At most five runs wait (three when volumes are
      kept), and the final inventory is the initial one minus exactly what the cluster owns. */
  method RunUntilComplete(cloud: Cloud, req: Request) returns (waits: nat)
    requires Ready(cloud.inv, req) && Honours(cloud.answers, |cloud.calls|)
    modifies cloud
    ensures waits == PhaseCount(old(cloud.inv), req)
    ensures waits <= if req.deleteVolumes then 5 else 3
    ensures cloud.inv == Remainder(old(cloud.inv), req)
    ensures forall k: Kind :: !HasWork(k, cloud.inv, req)
  {
    waits := 0;
    ghost var start := cloud.inv;
    var complete := false;
    while !complete
      invariant Ready(cloud.inv, req) && Honours(cloud.answers, |cloud.calls|)
      invariant Remainder(cloud.inv, req) == Remainder(start, req)
      invariant waits + PhaseCount(cloud.inv, req) == PhaseCount(start, req)
      invariant complete ==> PhaseCount(cloud.inv, req) == 0
      decreases PhaseCount(cloud.inv, req), !complete
    {
      ghost var inv := cloud.inv;
      HonouredRun(req, inv, cloud.answers, |cloud.calls|);
      var r := Run(cloud, req);
      if PhaseCount(inv, req) > 0 {
        ghost var kind :| IsCurrentPhase(kind, inv, req) && cloud.inv == CleanKind(kind, inv, req.clusterName);
        CleaningAdvances(kind, inv, req);
      }
      if r == Ok(Waiting) {
        waits := waits + 1;
      } else {
        complete := true;
      }
    }
    NoPhaseLeft(cloud.inv, req);
    NothingLeftToClean(cloud.inv, req);
  }
}
