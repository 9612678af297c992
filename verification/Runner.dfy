/** One bounded cleanup iteration (internal/cleanup/runner.go).

    `Run` works on a mutable `Cloud` that records every call. Its contract equates the calls,
    the remaining inventory and the result with `RunSpec`; the lemmas below say what that
    specification guarantees. */
module Runner {
  import opened Results
  import opened Ownership

  datatype Kind = FloatingIPs | LoadBalancers | SecurityGroups | Snapshots | Volumes

  datatype Inventory = Inventory(
    floatingIPs: seq<Resource>,
    loadBalancers: seq<Resource>,
    securityGroups: seq<Resource>,
    snapshots: seq<Resource>,
    volumes: seq<Resource>)
  {
    function Of(kind: Kind): seq<Resource> {
      match kind
      case FloatingIPs => floatingIPs
      case LoadBalancers => loadBalancers
      case SecurityGroups => securityGroups
      case Snapshots => snapshots
      case Volumes => volumes
    }

    function With(kind: Kind, rs: seq<Resource>): (inv: Inventory)
      ensures inv.Of(kind) == rs
      ensures forall k :: k != kind ==> inv.Of(k) == Of(k)
    {
      match kind
      case FloatingIPs => this.(floatingIPs := rs)
      case LoadBalancers => this.(loadBalancers := rs)
      case SecurityGroups => this.(securityGroups := rs)
      case Snapshots => this.(snapshots := rs)
      case Volumes => this.(volumes := rs)
    }
  }

  datatype Request = Request(clusterName: string, deleteVolumes: bool)

  datatype Call = List(kind: Kind) | Delete(kind: Kind, id: string)

  /** What OpenStack answers one call, and whether a DELETE took effect. `Pending` stands for
      400 and 409, `Refused` for every other failure; a refused DELETE may still be applied. */
  datatype Status = Accepted | Pending | Refused
  datatype Answer = Answer(status: Status, applied: bool)

  datatype Outcome = Complete | Waiting

  datatype Failure =
    | EmptyClusterName
    | ListFailed(kind: Kind)
    | EmptyID(kind: Kind)
    | MissingVIPPort(id: string)
    | DeleteFailed(kind: Kind, id: string)

  // ---------- selection ----------

  /** VIP ports of name-matching load balancers with a foreign or malformed reserved tag. */
  function ProtectedPorts(lbs: seq<Resource>, cluster: string): set<string> {
    set r | r in lbs && LoadBalancerMatches(r, cluster) && IsForeign(r, cluster) :: r.vipPortID
  }

  /** The ownership decision for one resource, given the protected VIP ports. */
  predicate Deletable(kind: Kind, r: Resource, ports: set<string>, cluster: string) {
    match kind
    case FloatingIPs => FloatingIPMatches(r, cluster) && r.attachedPortID !in ports
    case LoadBalancers => LoadBalancerMatches(r, cluster) && !IsForeign(r, cluster)
    case SecurityGroups => SecurityGroupMatches(r, cluster)
    case Snapshots => SnapshotMatches(r, cluster)
    case Volumes => VolumeMatches(r, cluster)
  }

  /** The IDs of the deletable resources, in inventory order. */
  function SelectIDs(kind: Kind, rs: seq<Resource>, ports: set<string>, cluster: string): seq<string> {
    if rs == [] then []
    else
      var last := rs[|rs| - 1];
      SelectIDs(kind, rs[..|rs| - 1], ports, cluster)
      + (if Deletable(kind, last, ports, cluster) then [last.id] else [])
  }

  function Selected(kind: Kind, inv: Inventory, cluster: string): seq<string> {
    SelectIDs(kind, inv.Of(kind), ProtectedPorts(inv.loadBalancers, cluster), cluster)
  }

  /** What blocks the whole run when this load balancer or floating IP is listed. */
  function Fault(kind: Kind, r: Resource, cluster: string): Option<Failure> {
    if kind == LoadBalancers && LoadBalancerMatches(r, cluster) then
      if r.id == "" then Some(EmptyID(kind))
      else if IsForeign(r, cluster) && r.vipPortID == "" then Some(MissingVIPPort(r.id))
      else None
    else if kind == FloatingIPs && FloatingIPMatches(r, cluster) && r.id == "" then Some(EmptyID(kind))
    else None
  }

  function FirstFault(kind: Kind, rs: seq<Resource>, cluster: string): Option<Failure> {
    if rs == [] then None
    else
      var earlier := FirstFault(kind, rs[..|rs| - 1], cluster);
      if earlier.Some? then earlier else Fault(kind, rs[|rs| - 1], cluster)
  }

  datatype Selection = Selection(floatingIPIDs: seq<string>, loadBalancerIDs: seq<string>)

  function Preflight(inv: Inventory, cluster: string): Result<Selection, Failure> {
    match FirstFault(LoadBalancers, inv.loadBalancers, cluster)
    case Some(f) => Err(f)
    case None =>
      match FirstFault(FloatingIPs, inv.floatingIPs, cluster)
      case Some(f) => Err(f)
      case None => Ok(Selection(Selected(FloatingIPs, inv, cluster), Selected(LoadBalancers, inv, cluster)))
  }

  // ---------- the specification of one run ----------

  datatype Effect = Effect(calls: seq<Call>, inv: Inventory, result: Result<Outcome, Failure>)

  function RemoveID(rs: seq<Resource>, id: string): seq<Resource> {
    if rs == [] then []
    else RemoveID(rs[..|rs| - 1], id) + (if rs[|rs| - 1].id == id then [] else [rs[|rs| - 1]])
  }

  function AfterDelete(inv: Inventory, kind: Kind, id: string, answer: Answer): Inventory {
    if answer.applied then inv.With(kind, RemoveID(inv.Of(kind), id)) else inv
  }

  function IssueDeletes(kind: Kind, ids: seq<string>, inv: Inventory, answers: nat -> Answer, n: nat): Effect {
    if ids == [] then Effect([], inv, Ok(Waiting))
    else
      var inv1 := AfterDelete(inv, kind, ids[0], answers(n));
      if answers(n).status.Refused? then
        Effect([Delete(kind, ids[0])], inv1, Err(DeleteFailed(kind, ids[0])))
      else
        var rest := IssueDeletes(kind, ids[1..], inv1, answers, n + 1);
        Effect([Delete(kind, ids[0])] + rest.calls, rest.inv, rest.result)
  }

  function DeletePhase(kind: Kind, ids: seq<string>, inv: Inventory, answers: nat -> Answer, n: nat): Effect {
    if "" in ids then Effect([], inv, Err(EmptyID(kind))) else IssueDeletes(kind, ids, inv, answers, n)
  }

  function Listed(answers: nat -> Answer, n: nat): bool {
    answers(n).status.Accepted?
  }

  function After(calls: seq<Call>, e: Effect): Effect {
    e.(calls := calls + e.calls)
  }

  /** List a single-inventory kind, then delete its selection or go on with `next`. */
  function Phase(kind: Kind, req: Request, inv: Inventory, answers: nat -> Answer, n: nat, next: Effect): Effect {
    var ids := Selected(kind, inv, req.clusterName);
    After([List(kind)],
      if !Listed(answers, n) then Effect([], inv, Err(ListFailed(kind)))
      else if ids != [] then DeletePhase(kind, ids, inv, answers, n + 1)
      else next)
  }

  function VolumePhases(req: Request, inv: Inventory, answers: nat -> Answer, n: nat): Effect {
    var done := Effect([], inv, Ok(Complete));
    if !req.deleteVolumes then done
    else Phase(Snapshots, req, inv, answers, n, Phase(Volumes, req, inv, answers, n + 1, done))
  }

  function LaterPhases(req: Request, inv: Inventory, answers: nat -> Answer, n: nat): Effect {
    Phase(SecurityGroups, req, inv, answers, n, VolumePhases(req, inv, answers, n + 1))
  }

  function RunSpec(req: Request, inv: Inventory, answers: nat -> Answer, n: nat): Effect {
    if req.clusterName == "" then Effect([], inv, Err(EmptyClusterName))
    else if !Listed(answers, n) then Effect([List(LoadBalancers)], inv, Err(ListFailed(LoadBalancers)))
    else After([List(LoadBalancers), List(FloatingIPs)],
      if !Listed(answers, n + 1) then Effect([], inv, Err(ListFailed(FloatingIPs)))
      else match Preflight(inv, req.clusterName)
        case Err(f) => Effect([], inv, Err(f))
        case Ok(chosen) =>
          if chosen.floatingIPIDs != [] then DeletePhase(FloatingIPs, chosen.floatingIPIDs, inv, answers, n + 2)
          else if chosen.loadBalancerIDs != [] then DeletePhase(LoadBalancers, chosen.loadBalancerIDs, inv, answers, n + 2)
          else LaterPhases(req, inv, answers, n + 2))
  }

  // ---------- the imperative runner ----------

  /** The OpenStack project seen through the typed services: an inventory that only accepted
      DELETEs change during a run, and the record of every call. */
  class Cloud {
    var inv: Inventory
    var calls: seq<Call>
    const answers: nat -> Answer

    constructor (inv: Inventory, answers: nat -> Answer)
      ensures this.inv == inv && this.calls == [] && this.answers == answers
    {
      this.inv := inv;
      this.calls := [];
      this.answers := answers;
    }

    method ListAll(kind: Kind) returns (r: Result<seq<Resource>, Failure>)
      modifies this
      ensures inv == old(inv) && calls == old(calls) + [List(kind)]
      ensures r == if Listed(answers, |old(calls)|) then Ok(inv.Of(kind)) else Err(ListFailed(kind))
    {
      var answer := answers(|calls|);
      calls := calls + [List(kind)];
      if answer.status.Accepted? {
        r := Ok(inv.Of(kind));
      } else {
        r := Err(ListFailed(kind));
      }
    }

    method DeleteByID(kind: Kind, id: string) returns (status: Status)
      modifies this
      ensures calls == old(calls) + [Delete(kind, id)]
      ensures status == answers(|old(calls)|).status
      ensures inv == AfterDelete(old(inv), kind, id, answers(|old(calls)|))
    {
      var answer := answers(|calls|);
      calls := calls + [Delete(kind, id)];
      inv := AfterDelete(inv, kind, id, answer);
      status := answer.status;
    }
  }

  lemma FirstFaultPrefix(kind: Kind, rs: seq<Resource>, i: nat, cluster: string)
    requires i <= |rs| && FirstFault(kind, rs[..i], cluster).Some?
    ensures FirstFault(kind, rs, cluster) == FirstFault(kind, rs[..i], cluster)
  {
    if i < |rs| {
      assert rs[..|rs| - 1][..i] == rs[..i];
      FirstFaultPrefix(kind, rs[..|rs| - 1], i, cluster);
    } else {
      assert rs[..i] == rs;
    }
  }

  method SelectLoadBalancersAndFloatingIPs(cluster: string, lbs: seq<Resource>, fips: seq<Resource>)
    returns (r: Result<Selection, Failure>)
    ensures r == Preflight(Inventory(fips, lbs, [], [], []), cluster)
  {
    var ports: set<string> := {};
    var lbIDs: seq<string> := [];
    for i := 0 to |lbs|
      invariant FirstFault(LoadBalancers, lbs[..i], cluster).None?
      invariant ports == ProtectedPorts(lbs[..i], cluster)
      invariant forall p :: lbIDs == SelectIDs(LoadBalancers, lbs[..i], p, cluster)
    {
      var lb := lbs[i];
      assert lbs[..i + 1] == lbs[..i] + [lb] && lbs[..i + 1][..i] == lbs[..i];
      if !LoadBalancerMatches(lb, cluster) {
        assert ProtectedPorts(lbs[..i + 1], cluster) == ports;
        continue;
      }
      if lb.id == "" {
        FirstFaultPrefix(LoadBalancers, lbs, i + 1, cluster);
        return Err(EmptyID(LoadBalancers));
      }
      var foreign := HasForeignOrInvalidServiceTag(lb, cluster);
      if foreign {
        if lb.vipPortID == "" {
          FirstFaultPrefix(LoadBalancers, lbs, i + 1, cluster);
          return Err(MissingVIPPort(lb.id));
        }
        ports := ports + {lb.vipPortID};
        assert ProtectedPorts(lbs[..i + 1], cluster) == ports;
        continue;
      }
      lbIDs := lbIDs + [lb.id];
      assert ProtectedPorts(lbs[..i + 1], cluster) == ports;
    }
    assert lbs[..|lbs|] == lbs;

    var fipIDs: seq<string> := [];
    for i := 0 to |fips|
      invariant FirstFault(FloatingIPs, fips[..i], cluster).None?
      invariant fipIDs == SelectIDs(FloatingIPs, fips[..i], ports, cluster)
    {
      var fip := fips[i];
      assert fips[..i + 1] == fips[..i] + [fip] && fips[..i + 1][..i] == fips[..i];
      if !FloatingIPMatches(fip, cluster) {
        continue;
      }
      if fip.id == "" {
        FirstFaultPrefix(FloatingIPs, fips, i + 1, cluster);
        return Err(EmptyID(FloatingIPs));
      }
      if fip.attachedPortID in ports {
        continue;
      }
      fipIDs := fipIDs + [fip.id];
    }
    assert fips[..|fips|] == fips;
    return Ok(Selection(fipIDs, lbIDs));
  }

  method SelectResourceIDs(kind: Kind, rs: seq<Resource>, cluster: string) returns (ids: seq<string>)
    requires kind != FloatingIPs
    ensures forall ports :: ids == SelectIDs(kind, rs, ports, cluster)
  {
    ids := [];
    for i := 0 to |rs|
      invariant forall ports :: ids == SelectIDs(kind, rs[..i], ports, cluster)
    {
      assert rs[..i + 1][..i] == rs[..i];
      if Deletable(kind, rs[i], {}, cluster) {
        ids := ids + [rs[i].id];
      }
    }
    assert rs[..|rs|] == rs;
  }

  lemma CallsJoin(before: seq<Call>, now: seq<Call>, later: seq<Call>)
    ensures before + (now + later) == before + now + later
  {
  }

  lemma IssueDeletesAt(kind: Kind, ids: seq<string>, i: nat, inv: Inventory, answers: nat -> Answer, n: nat)
    requires i < |ids|
    ensures var e, inv1 := IssueDeletes(kind, ids[i..], inv, answers, n), AfterDelete(inv, kind, ids[i], answers(n));
      var rest := IssueDeletes(kind, ids[i + 1..], inv1, answers, n + 1);
      e == if answers(n).status.Refused? then Effect([Delete(kind, ids[i])], inv1, Err(DeleteFailed(kind, ids[i])))
           else Effect([Delete(kind, ids[i])] + rest.calls, rest.inv, rest.result)
  {
    hide AfterDelete;
    assert ids[i..][1..] == ids[i + 1..];
  }

  /** The DELETE loop: pending answers go on, the first refusal stops. */
  method IssueAll(cloud: Cloud, kind: Kind, ids: seq<string>) returns (r: Result<Outcome, Failure>)
    modifies cloud
    ensures var e := IssueDeletes(kind, ids, old(cloud.inv), cloud.answers, |old(cloud.calls)|);
            r == e.result && cloud.inv == e.inv && cloud.calls == old(cloud.calls) + e.calls
  {
    ghost var n, before := |cloud.calls|, cloud.calls;
    ghost var whole := IssueDeletes(kind, ids, cloud.inv, cloud.answers, n);
    NoneToIssue(kind, cloud.inv, cloud.answers, n);
    assert ids[0..] == ids;
    hide IssueDeletes, AfterDelete;
    for i := 0 to |ids|
      invariant |cloud.calls| == n + i
      invariant var rest := IssueDeletes(kind, ids[i..], cloud.inv, cloud.answers, n + i);
                before + whole.calls == cloud.calls + rest.calls
                && whole.inv == rest.inv && whole.result == rest.result
    {
      IssueDeletesAt(kind, ids, i, cloud.inv, cloud.answers, n + i);
      ghost var calls := cloud.calls;
      var status := cloud.DeleteByID(kind, ids[i]);
      ghost var rest := IssueDeletes(kind, ids[i + 1..], cloud.inv, cloud.answers, n + i + 1);
      CallsJoin(calls, [Delete(kind, ids[i])], rest.calls);
      if status.Pending? {
        continue;
      }
      if status.Refused? {
        return Err(DeleteFailed(kind, ids[i]));
      }
    }
    NoneToIssue(kind, cloud.inv, cloud.answers, n + |ids|);
    return Ok(Waiting);
  }

  lemma NoneToIssue(kind: Kind, inv: Inventory, answers: nat -> Answer, n: nat)
    ensures IssueDeletes(kind, [], inv, answers, n) == Effect([], inv, Ok(Waiting))
  {
  }

  method DeleteResourcesForCurrentPhase(cloud: Cloud, kind: Kind, ids: seq<string>)
    returns (r: Result<Outcome, Failure>)
    modifies cloud
    ensures var e := DeletePhase(kind, ids, old(cloud.inv), cloud.answers, |old(cloud.calls)|);
            r == e.result && cloud.inv == e.inv && cloud.calls == old(cloud.calls) + e.calls
  {
    for i := 0 to |ids|
      invariant "" !in ids[..i]
    {
      if ids[i] == "" {
        return Err(EmptyID(kind));
      }
    }
    assert ids[..|ids|] == ids;
    r := IssueAll(cloud, kind, ids);
  }

  /** The effect of a phase, case by case. */
  lemma PhaseCases(kind: Kind, req: Request, inv: Inventory, answers: nat -> Answer, n: nat, next: Effect)
    ensures var e, ids := Phase(kind, req, inv, answers, n, next), Selected(kind, inv, req.clusterName);
      && (!Listed(answers, n) ==> e == Effect([List(kind)], inv, Err(ListFailed(kind))))
      && (Listed(answers, n) ==>
            var rest := if ids != [] then DeletePhase(kind, ids, inv, answers, n + 1) else next;
            e.result == rest.result && e.inv == rest.inv
            && forall before :: before + e.calls == before + [List(kind)] + rest.calls)
  {
    hide SelectIDs, DeletePhase, ProtectedPorts;
    var ids := Selected(kind, inv, req.clusterName);
    var rest := if ids != [] then DeletePhase(kind, ids, inv, answers, n + 1) else next;
    forall before
      ensures before + ([List(kind)] + rest.calls) == before + [List(kind)] + rest.calls
    {
      CallsJoin(before, [List(kind)], rest.calls);
    }
  }

  lemma SelectedIsSelectIDs(kind: Kind, inv: Inventory, cluster: string, ids: seq<string>)
    requires forall ports :: ids == SelectIDs(kind, inv.Of(kind), ports, cluster)
    ensures ids == Selected(kind, inv, cluster)
  {
  }

  /** Snapshots, then volumes: the part of a run that the volumes policy gates. */
  method RunVolumePhases(cloud: Cloud, req: Request) returns (r: Result<Outcome, Failure>)
    modifies cloud
    ensures var inv, n := old(cloud.inv), |old(cloud.calls)|;
            var e := VolumePhases(req, inv, cloud.answers, n);
            r == e.result && cloud.inv == e.inv && cloud.calls == old(cloud.calls) + e.calls
  {
    hide Phase, SelectIDs, Selected, DeletePhase;
    ghost var inv, answers, n := cloud.inv, cloud.answers, |cloud.calls|;
    ghost var done := Effect([], inv, Ok(Complete));
    if !req.deleteVolumes {
      return Ok(Complete);
    }
    PhaseCases(Volumes, req, inv, answers, n + 1, done);
    PhaseCases(Snapshots, req, inv, answers, n, Phase(Volumes, req, inv, answers, n + 1, done));
    var snapshots := cloud.ListAll(Snapshots);
    if snapshots.Err? {
      return Err(snapshots.error);
    }
    var snapshotIDs := SelectResourceIDs(Snapshots, snapshots.value, req.clusterName);
    SelectedIsSelectIDs(Snapshots, inv, req.clusterName, snapshotIDs);
    if |snapshotIDs| > 0 {
      r := DeleteResourcesForCurrentPhase(cloud, Snapshots, snapshotIDs);
      return;
    }
    var volumes := cloud.ListAll(Volumes);
    if volumes.Err? {
      return Err(volumes.error);
    }
    var volumeIDs := SelectResourceIDs(Volumes, volumes.value, req.clusterName);
    SelectedIsSelectIDs(Volumes, inv, req.clusterName, volumeIDs);
    if |volumeIDs| > 0 {
      r := DeleteResourcesForCurrentPhase(cloud, Volumes, volumeIDs);
      return;
    }
    return Ok(Complete);
  }

  /** Security groups, then the volume phases. */
  method RunLaterPhases(cloud: Cloud, req: Request) returns (r: Result<Outcome, Failure>)
    modifies cloud
    ensures var e := LaterPhases(req, old(cloud.inv), cloud.answers, |old(cloud.calls)|);
            r == e.result && cloud.inv == e.inv && cloud.calls == old(cloud.calls) + e.calls
  {
    hide Phase, SelectIDs, Selected, DeletePhase, VolumePhases;
    ghost var inv, n := cloud.inv, |cloud.calls|;
    PhaseCases(SecurityGroups, req, inv, cloud.answers, n, VolumePhases(req, inv, cloud.answers, n + 1));
    var groups := cloud.ListAll(SecurityGroups);
    if groups.Err? {
      return Err(groups.error);
    }
    var groupIDs := SelectResourceIDs(SecurityGroups, groups.value, req.clusterName);
    SelectedIsSelectIDs(SecurityGroups, inv, req.clusterName, groupIDs);
    if |groupIDs| > 0 {
      r := DeleteResourcesForCurrentPhase(cloud, SecurityGroups, groupIDs);
      return;
    }
    r := RunVolumePhases(cloud, req);
  }

  lemma PreflightReads(inv: Inventory, cluster: string)
    ensures Preflight(Inventory(inv.floatingIPs, inv.loadBalancers, [], [], []), cluster) == Preflight(inv, cluster)
  {
  }

  method Run(cloud: Cloud, req: Request) returns (r: Result<Outcome, Failure>)
    modifies cloud
    ensures var e := RunSpec(req, old(cloud.inv), cloud.answers, |old(cloud.calls)|);
            r == e.result && cloud.inv == e.inv && cloud.calls == old(cloud.calls) + e.calls
  {
    hide Preflight, LaterPhases, DeletePhase;
    ghost var inv, before := cloud.inv, cloud.calls;
    if req.clusterName == "" {
      return Err(EmptyClusterName);
    }
    var lbs := cloud.ListAll(LoadBalancers);
    if lbs.Err? {
      return Err(lbs.error);
    }
    var fips := cloud.ListAll(FloatingIPs);
    assert cloud.calls == before + [List(LoadBalancers), List(FloatingIPs)];
    if fips.Err? {
      return Err(fips.error);
    }
    var chosen := SelectLoadBalancersAndFloatingIPs(req.clusterName, lbs.value, fips.value);
    PreflightReads(inv, req.clusterName);
    if chosen.Err? {
      return Err(chosen.error);
    }
    ghost var listed := [List(LoadBalancers), List(FloatingIPs)];
    if |chosen.value.floatingIPIDs| > 0 {
      CallsJoin(before, listed, DeletePhase(FloatingIPs, chosen.value.floatingIPIDs, inv, cloud.answers, |cloud.calls|).calls);
      r := DeleteResourcesForCurrentPhase(cloud, FloatingIPs, chosen.value.floatingIPIDs);
      return;
    }
    if |chosen.value.loadBalancerIDs| > 0 {
      CallsJoin(before, listed, DeletePhase(LoadBalancers, chosen.value.loadBalancerIDs, inv, cloud.answers, |cloud.calls|).calls);
      r := DeleteResourcesForCurrentPhase(cloud, LoadBalancers, chosen.value.loadBalancerIDs);
      return;
    }
    CallsJoin(before, listed, LaterPhases(req, inv, cloud.answers, |cloud.calls|).calls);
    r := RunLaterPhases(cloud, req);
  }
}
