/** What a listing promises, read off statuses, next links and JSON fields alone. */
module PageText {
  import opened Results
  import Ownership
  import Runner
  import opened Pagination

  // ---------- the end of a chain ----------

  /** Every page before the k-th is there, has status 200 and links to a next page. */
  ghost predicate Leads(chain: Chain, k: nat) {
    && k <= |chain|
    && forall i :: 0 <= i < k ==>
         chain[i].Ok? && chain[i].value.status == 200 && chain[i].value.next.Ok? && chain[i].value.next.value != ""
  }

  lemma GoesOn(service: Service, chain: Chain, project: string, i: nat)
    requires i < |chain| && Listing(service, chain, project, i).Ok?
    requires chain[i].Ok? && chain[i].value.status == 200 && chain[i].value.next.Ok? && chain[i].value.next.value != ""
    ensures Handled(service, chain[i].value, project).Ok? && Listing(service, chain, project, i + 1).Ok?
    ensures Listing(service, chain, project, i).value
         == Handled(service, chain[i].value, project).value + Listing(service, chain, project, i + 1).value
  {
    hide Handled;
  }

  lemma {:induction false} ListingLeads(service: Service, chain: Chain, project: string, k: nat)
    requires Listing(service, chain, project, 0).Ok? && Leads(chain, k)
    ensures Listing(service, chain, project, k).Ok?
    ensures forall r :: r in Listing(service, chain, project, k).value ==> r in Listing(service, chain, project, 0).value
  {
    hide Listing, Handled;
    if k > 0 {
      ListingLeads(service, chain, project, k - 1);
      GoesOn(service, chain, project, k - 1);
    }
  }

  // ---------- pages and items by their fields ----------

  /** The raw items under this key of the body. */
  ghost predicate Holds(body: Value, key: string, raw: seq<Value>) {
    body.Object? && key in body.fields && body.fields[key] == Items(raw)
  }

  ghost predicate HasTags(raw: Value, tags: seq<string>) {
    raw.Object? && "tags" in raw.fields && raw.fields["tags"].Items? && var items := raw.fields["tags"].items;
      |items| == |tags| && forall t :: 0 <= t < |tags| ==> items[t] == Text(tags[t])
  }

  ghost predicate HasVIPPort(raw: Value, port: string) {
    raw.Object? && "vip_port_id" in raw.fields && raw.fields["vip_port_id"] == Text(port)
  }

  /** Null stands for an unattached floating IP. */
  ghost predicate HasPort(raw: Value, port: string) {
    raw.Object? && "port_id" in raw.fields
    && (raw.fields["port_id"] == Text(port) || (raw.fields["port_id"].Null? && port == ""))
  }

  /** The project and tenant of a Neutron resource, which may give either or both. */
  predicate NeutronOwner(d: Decoded, project: string) {
    (d.projectID == project && d.tenantID == project && project != "")
    || (d.projectID == project && project != "" && d.tenantID == "") || (d.projectID == "" && d.tenantID == project && project != "")
  }

  /** Item `j` of the page is in the project and reads as `r`. */
  ghost predicate Shows(service: Service, page: Page, project: string, j: nat, r: Ownership.Resource) {
    && page.decoded.Ok? && j < |page.decoded.value|
    && var d := page.decoded.value[j];
       match service
       case LoadBalancers =>
         && d.projectID == project && project != ""
         && exists raw :: Holds(page.body, "loadbalancers", raw) && j < |raw|
              && r.LoadBalancer? && r.id == d.id && r.name == d.name && HasTags(raw[j], r.tags) && HasVIPPort(raw[j], r.vipPortID)
       case FloatingIPs =>
         && NeutronOwner(d, project)
         && exists raw :: Holds(page.body, "floatingips", raw) && j < |raw|
              && r.FloatingIP? && r.id == d.id && r.description == d.description && HasPort(raw[j], r.attachedPortID)
       case SecurityGroups => NeutronOwner(d, project) && r == Ownership.SecurityGroup(d.id, d.description)
       case Snapshots => (d.projectID == "" || d.projectID == project) && r == Ownership.Snapshot(d.id, d.metadata)
       case Volumes => (d.tenantID == "" || d.tenantID == project) && r == Ownership.Volume(d.id, d.metadata)
  }

  lemma TagsAreTexts(raw: Value, tags: seq<string>)
    requires raw.Object? && "tags" in raw.fields && raw.fields["tags"].Items?
    ensures HasTags(raw, tags) <==> Texts(raw.fields["tags"].items) == Some(tags)
  {
    var items := raw.fields["tags"].items;
    if HasTags(raw, tags) {
      assert forall v :: v in items ==> v.Text?;
      assert Texts(items).value == tags;
    }
    if Texts(items) == Some(tags) {
      assert forall t :: 0 <= t < |items| ==> items[t] in items;
    }
  }

  lemma LoadBalancerShows(chain: Chain, project: string, k: nat, j: nat, r: Ownership.Resource)
    requires k < |chain| && chain[k].Ok?
    ensures IsItem(Runner.LoadBalancers, chain, project, k, j, r) <==> Shows(Runner.LoadBalancers, chain[k].value, project, j, r)
  {
    var page := chain[k].value;
    var raw := Collection(page.body, "loadbalancers");
    if raw.Some? && j < |raw.value| && raw.value[j].Object? && "tags" in raw.value[j].fields && raw.value[j].fields["tags"].Items?
       && r.LoadBalancer? {
      TagsAreTexts(raw.value[j], r.tags);
    }
    hide Texts;
  }

  /** The items a listing keeps, exactly by their fields. */
  lemma ItemIffShows(service: Service, chain: Chain, project: string, k: nat, j: nat, r: Ownership.Resource)
    requires k < |chain| && chain[k].Ok? && project != ""
    ensures IsItem(service, chain, project, k, j, r) <==> Shows(service, chain[k].value, project, j, r)
  {
    if service.LoadBalancers? {
      LoadBalancerShows(chain, project, k, j, r);
    }
  }

  /** A page that a successful listing may have read. */
  ghost predicate IsSound(service: Service, page: Page) {
    && (page.status == 200 || page.status == 204)
    && (page.status == 200 ==>
          && page.decoded.Ok?
          && (exists raw :: Holds(page.body, Key(service), raw)
                && ((service.LoadBalancers? || service.FloatingIPs?) && (page.decoded.value != [] || page.next != Ok("")) ==>
                      |raw| == |page.decoded.value| && forall j :: 0 <= j < |raw| ==> IsWhole(service, raw[j])))
          && forall j :: 0 <= j < |page.decoded.value| ==> OwnerIsPlain(service, page.decoded.value[j]))
  }

  /** The raw item has the fields that protect it, each of its type. */
  ghost predicate IsWhole(service: Service, raw: Value) {
    match service
    case LoadBalancers => (exists tags :: HasTags(raw, tags)) && exists port :: HasVIPPort(raw, port)
    case FloatingIPs => exists port :: HasPort(raw, port)
    case _ => true
  }

  lemma ExtraIsWhole(service: Service, raw: Value)
    requires ExtraOf(service, raw).Some?
    ensures IsWhole(service, raw)
  {
    match service
    case LoadBalancers =>
      TagsAreTexts(raw, ExtraOf(service, raw).value.tags);
      assert HasTags(raw, ExtraOf(service, raw).value.tags) && HasVIPPort(raw, ExtraOf(service, raw).value.portID);
    case FloatingIPs => assert HasPort(raw, ExtraOf(service, raw).value.portID);
    case _ =>
  }

  function Key(service: Service): string {
    match service
    case LoadBalancers => "loadbalancers"
    case FloatingIPs => "floatingips"
    case SecurityGroups => "security_groups"
    case Snapshots => "snapshots"
    case Volumes => "volumes"
  }

  /** Octavia names the project; Neutron names it once or twice, but not two different ones. */
  predicate OwnerIsPlain(service: Service, d: Decoded) {
    match service
    case LoadBalancers => d.projectID != ""
    case FloatingIPs | SecurityGroups =>
      (d.projectID != "" || d.tenantID != "") && (d.projectID != "" && d.tenantID != "" ==> d.projectID == d.tenantID)
    case Snapshots | Volumes => true
  }

  // ---------- nothing is truncated ----------

  lemma ReadPageIsSound(service: Service, chain: Chain, project: string, k: nat)
    requires k <= |chain| && Listing(service, chain, project, k).Ok?
    ensures k < |chain| && chain[k].Ok? && IsSound(service, chain[k].value)
  {
    hide ExtraOf, Resources, Texts, IsWhole;
    if k < |chain| && chain[k].Ok? && chain[k].value.status == 200 {
      var page := chain[k].value;
      var raw := Collection(page.body, CollectionKey(service)).value;
      assert Holds(page.body, Key(service), raw);
      if ReadsRaw(service) && (page.decoded.value != [] || page.next != Ok("")) {
        forall j | 0 <= j < |raw|
          ensures IsWhole(service, raw[j])
        {
          ExtraIsWhole(service, raw[j]);
        }
      }
    }
  }

  lemma ItemsAreInListing(service: Service, chain: Chain, project: string, k: nat)
    requires k < |chain| && Listing(service, chain, project, k).Ok? && chain[k].Ok? && chain[k].value.status == 200
    ensures forall j, r :: IsItem(service, chain, project, k, j, r) ==> r in Listing(service, chain, project, k).value
  {
    hide BelongsToProject, ExtraOf, Build, Handled;
    forall j, r | IsItem(service, chain, project, k, j, r)
      ensures r in Listing(service, chain, project, k).value
    {
      assert Accepted(service, chain, project, k) by { ListedIsAccepted(service, chain, project, k); }
      PageResourcesIff(service, chain, project, k, r);
    }
  }

  lemma ListedIsAccepted(service: Service, chain: Chain, project: string, k: nat)
    requires k < |chain| && Listing(service, chain, project, k).Ok? && chain[k].Ok? && chain[k].value.status == 200
    requires chain[k].value.decoded.Ok? && chain[k].value.decoded.value != []
    ensures Accepted(service, chain, project, k)
  {
    hide Handled;
  }

  /** Nothing is truncated: a successful listing read every page that a chain of status 200 and
      next links leads to, whether those before it were empty or not, and every in-project item of
      such a page is in the result as its fields say. A page it could not accept, with another
      status, another shape or an unclear owner, would have failed it. */
  lemma NothingIsTruncated(service: Service, chain: Chain, project: string, k: nat)
    requires Listing(service, chain, project, 0).Ok? && Leads(chain, k) && project != ""
    ensures k < |chain| && chain[k].Ok? && IsSound(service, chain[k].value)
    ensures chain[k].value.status == 200 ==>
      forall j, r :: Shows(service, chain[k].value, project, j, r) ==> r in Listing(service, chain, project, 0).value
  {
    hide Listing, IsSound, Shows, IsItem;
    ListingLeads(service, chain, project, k);
    ReadPageIsSound(service, chain, project, k);
    if chain[k].value.status == 200 {
      ItemsAreInListing(service, chain, project, k);
      forall j, r | Shows(service, chain[k].value, project, j, r)
        ensures r in Listing(service, chain, project, 0).value
      {
        ItemIffShows(service, chain, project, k, j, r);
      }
    }
  }

  /** The k-th page ends a chain: no content, or no next link. */
  ghost predicate Ends(page: Page) {
    page.status == 204 || (page.status == 200 && page.next == Ok(""))
  }

  lemma WholeHasExtra(service: Service, raw: Value)
    requires IsWhole(service, raw)
    ensures ExtraOf(service, raw).Some?
  {
    match service
    case LoadBalancers =>
      var tags :| HasTags(raw, tags);
      TagsAreTexts(raw, tags);
    case FloatingIPs =>
    case _ =>
  }

  lemma SoundIsHandled(service: Service, page: Page, project: string)
    requires IsSound(service, page) && page.status == 200 && (page.decoded.value != [] || page.next != Ok(""))
    ensures Handled(service, page, project).Ok?
  {
    hide ExtraOf, Resources, IsWhole;
    var raw :| Holds(page.body, Key(service), raw)
      && (ReadsRaw(service) ==> |raw| == |page.decoded.value| && forall j :: 0 <= j < |raw| ==> IsWhole(service, raw[j]));
    assert Collection(page.body, CollectionKey(service)) == Some(raw);
    if ReadsRaw(service) {
      forall j | 0 <= j < |raw|
        ensures ExtraOf(service, raw[j]).Some?
      {
        WholeHasExtra(service, raw[j]);
      }
    } else {
      NoExtraIsNeeded(service);
    }
    assert OwnersAreGood(service, page.decoded.value, project);
  }

  lemma NoExtraIsNeeded(service: Service)
    requires !ReadsRaw(service)
    ensures forall raw :: ExtraOf(service, raw).Some?
  {
  }

  lemma SoundIsEmptyIff(service: Service, page: Page)
    requires IsSound(service, page) && page.next.Ok?
    ensures IsEmpty(page, CollectionKey(service))
         == Ok(page.status == 204 || (page.decoded.value == [] && page.next.value == ""))
  {
  }

  /** Sound pages are enough: a chain of them, up to one that ends it, is listed without an error. */
  lemma {:induction false} SoundChainIsListed(service: Service, chain: Chain, project: string, i: nat, k: nat)
    requires i <= k < |chain| && Leads(chain, k) && chain[k].Ok? && Ends(chain[k].value)
    requires forall j :: i <= j <= k ==> chain[j].Ok? && IsSound(service, chain[j].value) && chain[j].value.next.Ok?
    ensures Listing(service, chain, project, i).Ok?
    ensures i == k && (chain[k].value.status == 204 || chain[k].value.decoded.value == []) ==> Listing(service, chain, project, i) == Ok([])
    decreases k - i
  {
    hide Handled, IsSound, IsEmpty, Resources;
    var page := chain[i].value;
    SoundIsEmptyIff(service, page);
    if i < k {
      SoundChainIsListed(service, chain, project, i + 1, k);
    }
    SoundIsDecoded(service, page);
    if page.status == 200 && (page.decoded.value != [] || page.next != Ok("")) {
      SoundIsHandled(service, page, project);
    }
  }

  lemma SoundIsDecoded(service: Service, page: Page)
    requires IsSound(service, page)
    ensures page.status == 204 || (page.status == 200 && page.decoded.Ok?)
  {
  }

  /** And nothing is made up: every listed resource is an in-project item of such a page. */
  lemma NothingIsMadeUp(service: Service, chain: Chain, project: string, r: Ownership.Resource)
    requires Listing(service, chain, project, 0).Ok? && r in Listing(service, chain, project, 0).value && project != ""
    ensures exists k: nat, j: nat :: k < |chain| && chain[k].Ok? && Shows(service, chain[k].value, project, j, r)
  {
    hide Listing, Shows, IsItem, Complete;
    InventoryIff(service, chain, project);
    var zero := 0;
    var n: nat :| Complete(service, chain, project, zero, n)
      && (r in Listing(service, chain, project, 0).value <==> IsListed(service, chain, project, n, r));
    var k: nat, j: nat :| k < n && IsItem(service, chain, project, k, j, r);
    ItemIsOnPage(service, chain, project, k, j, r);
    ItemIffShows(service, chain, project, k, j, r);
  }

  lemma ItemIsOnPage(service: Service, chain: Chain, project: string, k: nat, j: nat, r: Ownership.Resource)
    requires IsItem(service, chain, project, k, j, r)
    ensures k < |chain| && chain[k].Ok?
  {
  }
}
