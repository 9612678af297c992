/** From the finalizer down to the page chains: the inventories behind a removal are complete
    listings, and no item on any of their pages is owned. */
module Inventories {
  import opened Results
  import opened Ownership
  import opened Objects
  import opened Checkpoint
  import opened Runner
  import opened RunnerSafety
  import opened Protocol
  import opened ProtocolTheorems
  import Pagination

  /** What the five listings were answered, page by page. */
  type Chains = Kind -> Pagination.Chain

  /** The inventory of every enabled kind is what its listing returned. */
  ghost predicate ListedFrom(inv: Inventory, chains: Chains, project: string, req: Request) {
    forall kind: Kind :: Enabled(kind, req) ==> Pagination.Listing(kind, chains(kind), project, 0) == Ok(inv.Of(kind))
  }

  /** The chain of this kind was read to its end, and no in-project item of any of its pages is one
      the ownership rule selects. */
  ghost predicate NothingOwnedOnPages(kind: Kind, chain: Pagination.Chain, project: string, ports: set<string>, cluster: string) {
    exists n: nat :: Pagination.Complete(kind, chain, project, 0, n)
      && forall r :: Pagination.IsListed(kind, chain, project, n, r) ==> !Deletable(kind, r, ports, cluster)
  }

  /** The cleanup an object asks for. */
  function Asked(operatorDefault: string, c: Cluster): Request {
    Request(ClusterNameFor(c), VolumesPolicyFor(operatorDefault, c) == POLICY_DELETE)
  }

  lemma NothingOwnedInListing(operatorDefault: string, e: Event, c: Cluster, chains: Chains, project: string, kind: Kind)
    requires NothingLeftFor(operatorDefault, e, c) && ListedFrom(e.inv, chains, project, Asked(operatorDefault, c))
    requires Enabled(kind, Asked(operatorDefault, c))
    ensures NothingOwnedOnPages(kind, chains(kind), project, ProtectedPorts(e.inv.loadBalancers, ClusterNameFor(c)), ClusterNameFor(c))
  {
    hide Drained, Deletable, Pagination.Listing, Pagination.Complete, Pagination.IsListed, ClusterNameFor, VolumesPolicyFor;
    var chain, ports := chains(kind), ProtectedPorts(e.inv.loadBalancers, ClusterNameFor(c));
    var listed := Pagination.Listing(kind, chain, project, 0).value;
    Pagination.InventoryIff(kind, chain, project);
    forall r | r in listed
      ensures !Deletable(kind, r, ports, ClusterNameFor(c))
    {
      NothingLeftMeansNothingOwned(operatorDefault, e, c, kind, r);
    }
  }

  /** What stands behind a removal: an earlier cleanup of this very scope, and, if its inventories
      are what the listings of some project returned, page chains read to their ends on which no
      in-project item of an enabled kind is owned. */
  ghost predicate CleanOnEveryPage(operatorDefault: string, tr: seq<Event>, k: nat, a: nat)
    requires a < k < |tr| && tr[k].FinalizerRemoved?
  {
    var c := tr[k].cluster;
    && NothingLeftFor(operatorDefault, tr[a], c)
    && (ReadCheckpoint(c).Absent? ==> tr[a].id == tr[k].id && tr[a].obs.generation == c.generation)
    && forall chains, project, kind: Kind ::
         ListedFrom(tr[a].inv, chains, project, Asked(operatorDefault, c)) && Enabled(kind, Asked(operatorDefault, c)) ==>
           NothingOwnedOnPages(kind, chains(kind), project, ProtectedPorts(tr[a].inv.loadBalancers, ClusterNameFor(c)), ClusterNameFor(c))
  }

  /** The whole composition, in every run: finalizer, reconcile, cleanup, inventory, pages, items. */
  lemma FinalizerRemovalMeansCleanPages(run: seq<System>, i: nat, k: nat)
    requires IsRun(run) && i < |run| && k < |run[i].trace| && run[i].trace[k].FinalizerRemoved?
    ensures exists a: nat :: a < k && CleanOnEveryPage(run[i].world.operatorDefault, run[i].trace, k, a)
  {
    hide IsRun, ReadCheckpoint, Drained, NothingOwnedOnPages, ListedFrom;
    FinalizerRemovalMeansNothingLeft(run, i, k);
    var tr, op, c := run[i].trace, run[i].world.operatorDefault, run[i].trace[k].cluster;
    var a: nat :| a < k && NothingLeftFor(op, tr[a], c)
      && (ReadCheckpoint(c).Absent? ==> tr[a].id == tr[k].id && tr[a].obs.generation == c.generation);
    forall chains, project, kind: Kind | ListedFrom(tr[a].inv, chains, project, Asked(op, c)) && Enabled(kind, Asked(op, c))
      ensures NothingOwnedOnPages(kind, chains(kind), project, ProtectedPorts(tr[a].inv.loadBalancers, ClusterNameFor(c)), ClusterNameFor(c))
    {
      NothingOwnedInListing(op, tr[a], c, chains, project, kind);
    }
    assert CleanOnEveryPage(op, tr, k, a);
  }
}
