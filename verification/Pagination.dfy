/** Complete-or-nothing inventories (internal/openstack/pageutil/collection_page.go,
    loadbalancer/service.go, network/service.go, volume/service.go).

    The pager is Gophercloud's: fetch a page, stop if it is empty, hand it over, follow its next
    URL, stop when there is none. A chain lists what the fetches return, in order. */
module Pagination {
  import opened Results
  import Ownership
  import Runner

  /** A JSON value as the page body holds it. */
  datatype Value = Null | Text(text: string) | Items(items: seq<Value>) | Object(fields: map<string, Value>) | Other

  /** One resource as Gophercloud decodes it. */
  datatype Decoded = Decoded(id: string, name: string, description: string, metadata: map<string, string>,
                             projectID: string, tenantID: string)

  datatype Fault = FetchFailed | BadStatus | BadEnvelope | BadDecoding | BadNextURL | BadFields | LengthMismatch | BadOwnership

  /** A response, with what Gophercloud makes of its body and of its next link. */
  datatype Page = Page(status: int, body: Value, decoded: Result<seq<Decoded>, Fault>, next: Result<string, Fault>)

  type Chain = seq<Result<Page, Fault>>

  /** One listing for each kind of resource. */
  type Service = Runner.Kind

  /** The fields read from the raw item. */
  datatype Extra = Extra(tags: seq<string>, portID: string)

  // ---------- one page ----------

  function CollectionKey(service: Service): string {
    match service
    case LoadBalancers => "loadbalancers"
    case FloatingIPs => "floatingips"
    case SecurityGroups => "security_groups"
    case Snapshots => "snapshots"
    case Volumes => "volumes"
  }

  /** Two listings read fields past the decoder. */
  predicate ReadsRaw(service: Service) {
    service.LoadBalancers? || service.FloatingIPs?
  }

  /** The raw items, if the body is an object that holds an array under the key. */
  function Collection(body: Value, key: string): Option<seq<Value>> {
    if body.Object? && key in body.fields && body.fields[key].Items? then Some(body.fields[key].items) else None
  }

  /** Empty means the end of the chain: no content, or no items and no next page. */
  function IsEmpty(page: Page, key: string): Result<bool, Fault> {
    if page.status == 204 then Ok(true)
    else if page.status != 200 then Err(BadStatus)
    else if Collection(page.body, key).None? then Err(BadEnvelope)
    else
      match page.decoded
      case Err(f) => Err(f)
      case Ok(resources) =>
        if resources != [] then Ok(false)
        else
          match page.next
          case Err(f) => Err(f)
          case Ok(url) => Ok(url == "")
  }

  function Texts(values: seq<Value>): Option<seq<string>> {
    if forall v :: v in values ==> v.Text? then Some(seq(|values|, (i: nat) requires i < |values| && values[i].Text? => values[i].text))
    else None
  }

  /** The raw items a listing reads, one for each decoded resource; the other listings read none. */
  function RawItems(service: Service, page: Page): Option<seq<Value>> {
    if ReadsRaw(service) then Collection(page.body, CollectionKey(service))
    else Some(if page.decoded.Ok? then seq(|page.decoded.value|, _ => Null) else [])
  }

  /** The protection fields of one raw item; None if one is missing or has another type. */
  function ExtraOf(service: Service, raw: Value): Option<Extra> {
    if !ReadsRaw(service) then Some(Extra([], ""))
    else if !raw.Object? then None
    else
      match service
      case LoadBalancers =>
        if "tags" !in raw.fields || !raw.fields["tags"].Items? || Texts(raw.fields["tags"].items).None? then None
        else if "vip_port_id" !in raw.fields || !raw.fields["vip_port_id"].Text? then None
        else Some(Extra(Texts(raw.fields["tags"].items).value, raw.fields["vip_port_id"].text))
      case FloatingIPs =>
        if "port_id" !in raw.fields then None
        else if raw.fields["port_id"].Null? then Some(Extra([], ""))
        else if !raw.fields["port_id"].Text? then None
        else Some(Extra([], raw.fields["port_id"].text))
  }

  /** resourceBelongsToProject, and the simpler tests of the other listings: Octavia always names
      the project, Cinder may leave it out. */
  function BelongsToProject(service: Service, d: Decoded, project: string): Option<bool> {
    match service
    case LoadBalancers => if d.projectID == "" then None else Some(d.projectID == project)
    case FloatingIPs | SecurityGroups =>
      if d.projectID == "" && d.tenantID == "" then None
      else if d.projectID != "" && d.tenantID != "" && d.projectID != d.tenantID then None
      else if d.projectID != "" then Some(d.projectID == project)
      else Some(d.tenantID == project)
    case Snapshots => Some(d.projectID == "" || d.projectID == project)
    case Volumes => Some(d.tenantID == "" || d.tenantID == project)
  }

  function Build(service: Service, d: Decoded, extra: Extra): Ownership.Resource {
    match service
    case LoadBalancers => Ownership.LoadBalancer(d.id, d.name, extra.tags, extra.portID)
    case FloatingIPs => Ownership.FloatingIP(d.id, d.description, extra.portID)
    case SecurityGroups => Ownership.SecurityGroup(d.id, d.description)
    case Snapshots => Ownership.Snapshot(d.id, d.metadata)
    case Volumes => Ownership.Volume(d.id, d.metadata)
  }

  /** The in-project resources among the first `n`, each with the fields of its own raw item. */
  function Resources(service: Service, ds: seq<Decoded>, raw: seq<Value>, project: string, n: nat): seq<Ownership.Resource>
    requires n <= |ds| && n <= |raw|
  {
    if n == 0 then []
    else
      var i, extra := n - 1, ExtraOf(service, raw[n - 1]);
      Resources(service, ds, raw, project, n - 1)
      + (if extra.Some? && BelongsToProject(service, ds[i], project) == Some(true) then [Build(service, ds[i], extra.value)] else [])
  }

  ghost predicate FieldsAreGood(service: Service, raw: seq<Value>) {
    forall i :: 0 <= i < |raw| ==> ExtraOf(service, raw[i]).Some?
  }

  ghost predicate OwnersAreGood(service: Service, ds: seq<Decoded>, project: string) {
    forall i :: 0 <= i < |ds| ==> BelongsToProject(service, ds[i], project).Some?
  }

  /** What the page handler does with a page. */
  ghost function Handled(service: Service, page: Page, project: string): Result<seq<Ownership.Resource>, Fault> {
    match RawItems(service, page)
    case None => Err(BadFields)
    case Some(raw) =>
      if !FieldsAreGood(service, raw) then Err(BadFields)
      else
        match page.decoded
        case Err(f) => Err(f)
        case Ok(ds) =>
          if |ds| != |raw| then Err(LengthMismatch)
          else if !OwnersAreGood(service, ds, project) then Err(BadOwnership)
          else Ok(Resources(service, ds, raw, project, |ds|))
  }

  // ---------- a chain of pages ----------

  /** What the whole listing returns from the i-th fetch on. */
  ghost function Listing(service: Service, chain: Chain, project: string, i: nat): Result<seq<Ownership.Resource>, Fault>
    requires i <= |chain|
    decreases |chain| - i
  {
    if i == |chain| then Err(FetchFailed)
    else
      match chain[i]
      case Err(f) => Err(f)
      case Ok(page) =>
        match IsEmpty(page, CollectionKey(service))
        case Err(f) => Err(f)
        case Ok(true) => Ok([])
        case Ok(false) =>
          match Handled(service, page, project)
          case Err(f) => Err(f)
          case Ok(here) =>
            match page.next
            case Err(f) => Err(f)
            case Ok(url) =>
              if url == "" then Ok(here)
              else
                match Listing(service, chain, project, i + 1)
                case Err(f) => Err(f)
                case Ok(rest) => Ok(here + rest)
  }

  /** The page was read, is not the empty end, and its handler accepted it. */
  ghost predicate Accepted(service: Service, chain: Chain, project: string, i: nat) {
    && i < |chain| && chain[i].Ok? && IsEmpty(chain[i].value, CollectionKey(service)) == Ok(false)
    && Handled(service, chain[i].value, project).Ok? && chain[i].value.next.Ok?
  }

  ghost predicate Continues(service: Service, chain: Chain, project: string, i: nat) {
    Accepted(service, chain, project, i) && chain[i].value.next != Ok("")
  }

  /** A page with nothing on it and nothing after it. */
  ghost predicate IsEnd(service: Service, chain: Chain, i: nat) {
    i < |chain| && chain[i].Ok? && IsEmpty(chain[i].value, CollectionKey(service)) == Ok(true)
  }

  /** Pages i to n, and no others, make up the rest of the chain: each was accepted and leads to
      the next, and the last has no next link or leads to an empty end. */
  ghost predicate Complete(service: Service, chain: Chain, project: string, i: nat, n: nat) {
    && i <= n <= |chain|
    && ((i < n && Accepted(service, chain, project, n - 1) && chain[n - 1].value.next == Ok("")
         && forall k :: i <= k < n - 1 ==> Continues(service, chain, project, k))
        || (IsEnd(service, chain, n) && forall k :: i <= k < n ==> Continues(service, chain, project, k)))
  }

  ghost function PageResources(service: Service, chain: Chain, project: string, i: nat): seq<Ownership.Resource>
    requires i < |chain|
  {
    if chain[i].Ok? && Handled(service, chain[i].value, project).Ok? then Handled(service, chain[i].value, project).value else []
  }

  /** The resources of pages i to n, page after page. */
  ghost function AllPages(service: Service, chain: Chain, project: string, i: nat, n: nat): seq<Ownership.Resource>
    requires i <= n <= |chain|
    decreases n - i
  {
    if i == n then [] else PageResources(service, chain, project, i) + AllPages(service, chain, project, i + 1, n)
  }

  lemma CompleteFromNext(service: Service, chain: Chain, project: string, i: nat, n: nat)
    requires Continues(service, chain, project, i)
    ensures Complete(service, chain, project, i, n) <==> Complete(service, chain, project, i + 1, n)
  {
    hide Handled;
  }

  lemma CompleteIsAhead(service: Service, chain: Chain, project: string, i: nat, n: nat)
    ensures Complete(service, chain, project, i, n) ==> i <= n
  {
  }

  lemma CompleteAtOnce(service: Service, chain: Chain, project: string, i: nat, n: nat)
    requires i < |chain| && !Continues(service, chain, project, i)
    ensures Complete(service, chain, project, i, n) <==>
      (n == i && IsEnd(service, chain, i))
      || (n == i + 1 && Accepted(service, chain, project, i) && chain[i].value.next == Ok(""))
  {
    hide Handled;
    assert Complete(service, chain, project, i, n) && n > i + 1 ==> Continues(service, chain, project, i);
  }

  /** Complete or nothing: a listing succeeds exactly when the chain was read to its end, and then
      it returns the resources of every page, in order. */
  lemma {:induction false} ListingIff(service: Service, chain: Chain, project: string, i: nat)
    requires i <= |chain|
    ensures Listing(service, chain, project, i).Ok? <==> exists n :: Complete(service, chain, project, i, n)
    ensures forall n :: Complete(service, chain, project, i, n) ==>
      Listing(service, chain, project, i) == Ok(AllPages(service, chain, project, i, n))
    decreases |chain| - i
  {
    hide Complete, Handled, IsEmpty;
    if i == |chain| {
      NothingAfterTheChain(service, chain, project);
    } else if Continues(service, chain, project, i) {
      ListingIff(service, chain, project, i + 1);
      forall n
        ensures Complete(service, chain, project, i, n) ==> i + 1 <= n && Complete(service, chain, project, i + 1, n)
      {
        CompleteFromNext(service, chain, project, i, n);
        CompleteIsAhead(service, chain, project, i + 1, n);
      }
      var j := i + 1;
      if n: nat :| Complete(service, chain, project, j, n) {
        CompleteFromNext(service, chain, project, i, n);
      }
    } else {
      forall n
        ensures Complete(service, chain, project, i, n) <==>
          (n == i && IsEnd(service, chain, i))
          || (n == i + 1 && Accepted(service, chain, project, i) && chain[i].value.next == Ok(""))
      {
        CompleteAtOnce(service, chain, project, i, n);
      }
      assert Complete(service, chain, project, i, i) <==> IsEnd(service, chain, i);
      assert Complete(service, chain, project, i, i + 1) <==>
        Accepted(service, chain, project, i) && chain[i].value.next == Ok("");
      assert AllPages(service, chain, project, i, i + 1) == PageResources(service, chain, project, i);
    }
  }

  lemma NothingAfterTheChain(service: Service, chain: Chain, project: string)
    ensures forall n :: !Complete(service, chain, project, |chain|, n)
  {
    hide Handled;
  }

  // ---------- what a complete listing contains ----------

  /** Item `j` of page `k` is in the project, with its own raw fields. */
  ghost predicate IsItem(service: Service, chain: Chain, project: string, k: nat, j: nat, r: Ownership.Resource) {
    && k < |chain| && chain[k].Ok? && chain[k].value.decoded.Ok? && j < |chain[k].value.decoded.value|
    && var page := chain[k].value;
       var raw := RawItems(service, page);
       && raw.Some? && j < |raw.value| && BelongsToProject(service, page.decoded.value[j], project) == Some(true)
       && ExtraOf(service, raw.value[j]).Some?
       && r == Build(service, page.decoded.value[j], ExtraOf(service, raw.value[j]).value)
  }

  /** It is an item of one of the first `n` pages. */
  ghost predicate IsListed(service: Service, chain: Chain, project: string, n: nat, r: Ownership.Resource) {
    exists k: nat, j: nat :: k < n && IsItem(service, chain, project, k, j, r)
  }

  lemma {:induction false} ResourcesIff(service: Service, ds: seq<Decoded>, raw: seq<Value>, project: string, n: nat, r: Ownership.Resource)
    requires n <= |ds| && n <= |raw|
    ensures r in Resources(service, ds, raw, project, n)
       <==> exists j :: 0 <= j < n && BelongsToProject(service, ds[j], project) == Some(true) && ExtraOf(service, raw[j]).Some?
                        && r == Build(service, ds[j], ExtraOf(service, raw[j]).value)
  {
    hide BelongsToProject, ExtraOf, Build;
    if n > 0 {
      ResourcesIff(service, ds, raw, project, n - 1, r);
    }
  }

  lemma PageResourcesIff(service: Service, chain: Chain, project: string, k: nat, r: Ownership.Resource)
    requires Accepted(service, chain, project, k)
    ensures r in PageResources(service, chain, project, k) <==> exists j :: IsItem(service, chain, project, k, j, r)
  {
    hide BelongsToProject, ExtraOf, Build, IsEmpty, RawItems, FieldsAreGood, OwnersAreGood;
    var page := chain[k].value;
    var raw := RawItems(service, page).value;
    var ds := page.decoded.value;
    ResourcesIff(service, ds, raw, project, |ds|, r);
    if j :| 0 <= j < |ds| && BelongsToProject(service, ds[j], project) == Some(true) && ExtraOf(service, raw[j]).Some?
            && r == Build(service, ds[j], ExtraOf(service, raw[j]).value) {
      assert IsItem(service, chain, project, k, j, r);
    }
  }

  lemma {:induction false} AllPagesIff(service: Service, chain: Chain, project: string, i: nat, n: nat, r: Ownership.Resource)
    requires i <= n <= |chain|
    ensures r in AllPages(service, chain, project, i, n)
       <==> exists k :: i <= k < n && r in PageResources(service, chain, project, k)
    decreases n - i
  {
    hide PageResources;
    if i < n {
      AllPagesIff(service, chain, project, i + 1, n, r);
      var here, later := PageResources(service, chain, project, i), AllPages(service, chain, project, i + 1, n);
      assert r in here + later <==> r in here || r in later;
    }
  }

  /** The inventory of a successful listing: every in-project item of every page up to the end of
      the chain, each with the tags and port of its own raw item, and nothing else. */
  lemma InventoryIff(service: Service, chain: Chain, project: string)
    requires Listing(service, chain, project, 0).Ok?
    ensures exists n: nat ::
      (Complete(service, chain, project, 0, n)
       && forall r :: r in Listing(service, chain, project, 0).value <==> IsListed(service, chain, project, n, r))
  {
    ListingIff(service, chain, project, 0);
    var zero := 0;
    var n: nat :| Complete(service, chain, project, zero, n);
    hide Listing, IsItem, PageResources, Complete, Accepted;
    forall r
      ensures r in Listing(service, chain, project, 0).value <==> IsListed(service, chain, project, n, r)
    {
      AllPagesAreListed(service, chain, project, n, r);
    }
  }

  lemma AllPagesAreListed(service: Service, chain: Chain, project: string, n: nat, r: Ownership.Resource)
    requires Complete(service, chain, project, 0, n)
    ensures n <= |chain| && (r in AllPages(service, chain, project, 0, n) <==> IsListed(service, chain, project, n, r))
  {
    hide IsItem, PageResources, Accepted;
    AllPagesIff(service, chain, project, 0, n, r);
    if r in AllPages(service, chain, project, 0, n) {
      var k: nat :| k < n && r in PageResources(service, chain, project, k);
      CompleteAccepts(service, chain, project, n, k);
      PageResourcesIff(service, chain, project, k, r);
    }
    if IsListed(service, chain, project, n, r) {
      var k: nat, j: nat :| k < n && IsItem(service, chain, project, k, j, r);
      CompleteAccepts(service, chain, project, n, k);
      PageResourcesIff(service, chain, project, k, r);
    }
  }

  lemma CompleteAccepts(service: Service, chain: Chain, project: string, n: nat, k: nat)
    requires Complete(service, chain, project, 0, n) && k < n
    ensures Accepted(service, chain, project, k)
  {
    hide Handled, IsEmpty;
    assert k < n - 1 ==> Continues(service, chain, project, k);
    assert Continues(service, chain, project, k) || k == n - 1;
  }

  // ---------- the loops ----------

  method ReadTags(rawTags: seq<Value>) returns (r: Result<seq<string>, Fault>)
    ensures r == if Texts(rawTags).Some? then Ok(Texts(rawTags).value) else Err(BadFields)
  {
    var tags := new string[|rawTags|];
    for i := 0 to |rawTags|
      invariant forall k :: 0 <= k < i ==> rawTags[k].Text? && tags[k] == rawTags[k].text
    {
      if !rawTags[i].Text? {
        return Err(BadFields);
      }
      tags[i] := rawTags[i].text;
    }
    assert tags[..] == Texts(rawTags).value;
    r := Ok(tags[..]);
  }

  method ExtractLoadBalancerFields(body: Value) returns (r: Result<seq<Extra>, Fault>)
    ensures var raw := Collection(body, "loadbalancers");
      && (r.Ok? <==> raw.Some? && FieldsAreGood(Runner.LoadBalancers, raw.value))
      && (r.Ok? ==> |r.value| == |raw.value| && forall i :: 0 <= i < |raw.value| ==> Some(r.value[i]) == ExtraOf(Runner.LoadBalancers, raw.value[i]))
      && (r.Err? ==> r.error == BadFields)
  {
    var raw := Collection(body, "loadbalancers");
    if raw.None? {
      return Err(BadFields);
    }
    var fields := new Extra[|raw.value|](_ => Extra([], ""));
    for i := 0 to |raw.value|
      invariant forall k :: 0 <= k < i ==> Some(fields[k]) == ExtraOf(Runner.LoadBalancers, raw.value[k])
    {
      var item := raw.value[i];
      if !item.Object? || "tags" !in item.fields || !item.fields["tags"].Items? {
        return Err(BadFields);
      }
      var tags := ReadTags(item.fields["tags"].items);
      if tags.Err? {
        return Err(BadFields);
      }
      if "vip_port_id" !in item.fields || !item.fields["vip_port_id"].Text? {
        return Err(BadFields);
      }
      fields[i] := Extra(tags.value, item.fields["vip_port_id"].text);
    }
    r := Ok(fields[..]);
  }

  method ExtractAttachedPortIDs(body: Value) returns (r: Result<seq<Extra>, Fault>)
    ensures var raw := Collection(body, "floatingips");
      && (r.Ok? <==> raw.Some? && FieldsAreGood(Runner.FloatingIPs, raw.value))
      && (r.Ok? ==> |r.value| == |raw.value| && forall i :: 0 <= i < |raw.value| ==> Some(r.value[i]) == ExtraOf(Runner.FloatingIPs, raw.value[i]))
      && (r.Err? ==> r.error == BadFields)
  {
    var raw := Collection(body, "floatingips");
    if raw.None? {
      return Err(BadFields);
    }
    var ports := new Extra[|raw.value|](_ => Extra([], ""));
    for i := 0 to |raw.value|
      invariant forall k :: 0 <= k < i ==> Some(ports[k]) == ExtraOf(Runner.FloatingIPs, raw.value[k])
      invariant forall k :: i <= k < |raw.value| ==> ports[k] == Extra([], "")
    {
      var item := raw.value[i];
      if !item.Object? || "port_id" !in item.fields {
        return Err(BadFields);
      }
      if item.fields["port_id"].Null? {
        continue;
      }
      if !item.fields["port_id"].Text? {
        return Err(BadFields);
      }
      ports[i] := Extra([], item.fields["port_id"].text);
    }
    r := Ok(ports[..]);
  }

  /** The page callback: validate, decode, match the two by index, keep what is in the project. */
  method HandlePage(service: Service, page: Page, project: string) returns (r: Result<seq<Ownership.Resource>, Fault>)
    ensures r == Handled(service, page, project)
  {
    var extras: Result<seq<Extra>, Fault>;
    if service.LoadBalancers? {
      extras := ExtractLoadBalancerFields(page.body);
    } else if service.FloatingIPs? {
      extras := ExtractAttachedPortIDs(page.body);
    } else {
      extras := Ok(if page.decoded.Ok? then seq(|page.decoded.value|, _ => Extra([], "")) else []);
    }
    if extras.Err? {
      return Err(extras.error);
    }
    if page.decoded.Err? {
      return Err(page.decoded.error);
    }
    var ds := page.decoded.value;
    if |ds| != |extras.value| {
      return Err(LengthMismatch);
    }
    ghost var raw := RawItems(service, page).value;
    var kept: seq<Ownership.Resource> := [];
    for i := 0 to |ds|
      invariant kept == Resources(service, ds, raw, project, i)
      invariant forall k :: 0 <= k < i ==> BelongsToProject(service, ds[k], project).Some?
    {
      var belongs := BelongsToProject(service, ds[i], project);
      if belongs.None? {
        return Err(BadOwnership);
      }
      if !belongs.value {
        continue;
      }
      kept := kept + [Build(service, ds[i], extras.value[i])];
    }
    r := Ok(kept);
  }

  /** Each of the five listings: the pager's loop with the page callback in it. */
  method ListAll(service: Service, chain: Chain, project: string) returns (r: Result<seq<Ownership.Resource>, Fault>)
    ensures r == Listing(service, chain, project, 0)
  {
    hide Handled, IsEmpty;
    var listed: seq<Ownership.Resource> := [];
    var i := 0;
    ghost var whole := Listing(service, chain, project, 0);
    assert whole.Ok? ==> listed + whole.value == whole.value;
    while i < |chain|
      invariant i <= |chain|
      invariant var rest := Listing(service, chain, project, i);
        whole == if rest.Ok? then Ok(listed + rest.value) else rest
    {
      if chain[i].Err? {
        return Err(chain[i].error);
      }
      var page := chain[i].value;
      var empty := IsEmpty(page, CollectionKey(service));
      if empty.Err? {
        return Err(empty.error);
      }
      if empty.value {
        assert listed + [] == listed;
        return Ok(listed);
      }
      var here := HandlePage(service, page, project);
      if here.Err? {
        return Err(here.error);
      }
      ghost var rest := Listing(service, chain, project, i + 1);
      assert rest.Ok? ==> listed + (here.value + rest.value) == listed + here.value + rest.value;
      listed := listed + here.value;
      if page.next.Err? {
        return Err(page.next.error);
      }
      if page.next.value == "" {
        return Ok(listed);
      }
      i := i + 1;
    }
    r := Err(FetchFailed);
  }
}
