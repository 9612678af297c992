# The deletion protocol of the CAPI Janitor, verified in Dafny

The Janitor puts a finalizer on every `OpenStackCluster`. When the object is deleted it removes
the OpenStack resources that belong to the cluster, optionally the application credential and
the identity Secret, and only then its finalizer. This project models that path from the
finalizer down to the strings that decide ownership, and proves what it promises.

`dafny verify dfyconfig.toml` checks everything.

## How the model is laid out

| layer | modules |
|---|---|
| ownership strings, one cleanup run, many runs | `GoStrings`, `Ownership`, `Runner`, `RunnerSafety`, `OwnedText`, `Convergence` |
| inventories and error trees | `Pagination`, `PageText`, `ApiErrors` |
| authority, JSON, credential bindings, checkpoints | `Authority`, `Json`, `Credentials`, `Checkpoint` |
| API objects, pausing, watch indexes | `Objects`, `Lifecycle` |
| the protocol as a state machine and its invariant | `Protocol`, `Evolution`, `Invariants`, `Preservation`, `StepSafety` |
| what holds in every run | `ProtocolTheorems`, `Inventories`, `ScopeText`, `PauseSafety`, `Sharing`, `Blocked` |
| one reconcile, as written, as a run, and undisturbed | `Execution`, `Reconciler`, `Verdicts`, `Progress`, `EndToEnd`, `Overlap`, `Example` |

`Protocol` is the centre: any number of reconciles, one API call per step, interleaved with an
environment that may edit labels, annotations, specs, finalizers, owners, Secrets and
credentials, pause, create and remove objects. A reconcile may crash between any two calls, a
call may fail, and a write may commit although its answer is lost. A trace records the
controller's commits, the credential DELETEs it sends and its complete cleanups. `IsRun` is a
finite run from a state without checkpoints and without reconciles in flight.

`Reconciler` is the same controller in the shape of the Go code: methods over a mutable API
server that others may change before every call. Each method equals `Execution.Drive`, the
state machine followed from the matching point. While others keep to what the environment may do,
`Execution.ReconcileExtendsRun` makes every such execution a run of the protocol, so that the
theorems about runs are about these methods. Errors are the trees of `ApiErrors` there, wrapped
where the code wraps them, and `ApiErrors.Decide` is the one place that says what becomes of one.

The cleanup inside a reconcile is one step that performs a whole `RunSpec`, the specification
that the imperative `Runner.Run` meets call by call; `Reconciler.Api.Cleanup` calls `Run`. The
answer to a credential DELETE is an error tree, and only `ClassifyApplicationCredentialDelete`
turns it into a confirmation. Whether the DELETE took effect is a separate matter: an answer may
say less, or more, than what happened.

`OwnedText`, `PageText` and `ScopeText` say what the matchers, the page checks and the scope
functions decide in the terms of the resources themselves: description texts, metadata entries,
JSON fields, labels and annotations, without the model's own predicates.

### What is assumed about others

- Every write to an object gives it a resourceVersion never used before, larger than all earlier
  ones, and a write to a spec gives it a larger generation.
- UIDs are never reused, and no two stored objects share one.
- Nobody but the controller writes the checkpoint annotation. A set deletionTimestamp stays set.
- Reads go to the API server, as `APIReader` does, and each is one atomic look; a pause is read
  in one look at the owners.
- A session can be opened exactly while its application credential exists; its binding is the
  configuration with the user and project of the token.
- `clouds.yaml` arrives parsed, including what the cloud library merges into an entry. Strings
  are valid UTF-8, so that JSON encoding loses nothing.
- Authentication URLs are ASCII, without percent-encoded hosts or IPv6 zones; a host is a
  reg-name without colons (section 3.2.2 of RFC 3986) or a bracketed literal.
- Gophercloud's pager fetches a page, stops if `IsEmpty`, calls the handler, follows the next URL
  and stops when there is none. Its reauthentication errors have no Unwrap method. A page's own
  `IsEmpty` means that nothing is decoded from it. A page with status 204 ends a chain.

### Where a promise fails

- `internal/openstack/apierrors/delete.go:104-106` says that a failed reauthentication is never
  a completed deletion. It is so for every error tree that reaches one, unless a nil pointer of
  that type stands ahead of it: then the error is classified by its code alone.
  `FailedReauthenticationDeletedIff` is the exact condition, and `NilPointerHidesFailure` a tree.
  Nothing in the repository builds such a tree: its tests put a pointer to a filled wrapper there
  (`internal/openstack/apierrors/delete_test.go:186`), and no other file makes one. Gophercloud
  is not part of this model; the guards at lines 57 and 109 allow for a nil pointer from it.
- `internal/openstack/apierrors/delete.go:134-137` keeps the DELETE's answer ahead of the failed
  reauthentication. The status found in the result is nevertheless not always that of the DELETE:
  `responseCode` looks for codes held by value first, in the whole tree. `StatusStaysFirstIff` is
  the exact condition and `StatusCanBeOvertaken` a tree, with the DELETE's code behind a pointer.
  Nothing in the repository builds that tree either: its tests hold every code by value
  (`internal/openstack/apierrors/delete_test.go:184`), and then `ValueStatusStaysFirst` holds.

- `internal/cleanup/runner.go:187-199` tells clusters apart by the end of a description. That is
  exact unless a cluster's name itself ends in the words before the name and another name:
  `OwnedText.EndsInNameIff` is the condition, `MarkedNameIsConfused` a pair of names. Kubernetes
  names and label values have no spaces, so OCCM and CAPI do not produce them.

## Model

| member | source | states |
|---|---|---|
| Ownership.HasForeignOrInvalidServiceTag | internal/cleanup/runner.go:210-220 | the loop answers whether some reserved tag is not a valid tag of this cluster |
| Ownership.ValidTagIffBuilt | internal/cleanup/runner.go:222-229 | the parser accepts a tag exactly when it is built from this cluster and a non-empty, underscore-free namespace and Service, for any cluster name |
| Ownership.TagDecomposesUniquely | internal/cleanup/runner.go:222-229 | a tag names one cluster, namespace and Service, although cluster names may contain underscores |
| Ownership.OtherClustersTagIsForeign | internal/cleanup/runner.go:210-229 | a Service tag of another cluster vetoes deletion, its own never does |
| Runner.SelectLoadBalancersAndFloatingIPs | internal/cleanup/runner.go:139-185 | the two loops compute the preflight: first fault in listing order, else the selected IDs outside the protected VIP ports |
| Runner.SelectResourceIDs | internal/cleanup/runner.go:231-243 | the IDs of exactly the owned resources, in order |
| Runner.IssueAll | internal/cleanup/runner.go:257-266 | DELETEs in order, going on after pending answers, stopping at the first refusal |
| Runner.DeleteResourcesForCurrentPhase | internal/cleanup/runner.go:245-267 | an empty ID anywhere sends nothing |
| Runner.RunVolumePhases | internal/cleanup/runner.go:95-131 | snapshots before volumes, both only under the delete policy |
| Runner.RunLaterPhases | internal/cleanup/runner.go:74-131 | security groups before the volume phases |
| Runner.Run | internal/cleanup/runner.go:29-132 | calls, remaining inventory and result of one run are those of the specification the lemmas below are about |
| RunnerSafety.IssueDeletesTrace | internal/cleanup/runner.go:257-266 | the DELETE trace is the selected IDs up to the first answer that is neither success nor pending, and the result says which |
| RunnerSafety.RunIsSafe | internal/cleanup/runner.go:40-132 | all DELETEs are of the one earliest kind with work; a failure that no DELETE returned has sent none; Waiting has sent all; Complete leaves no enabled kind with work |
| RunnerSafety.CompleteIff | internal/cleanup/runner.go:40-131 | Complete exactly when every needed inventory was listed, nothing blocks and every enabled selector is empty |
| RunnerSafety.SelectedIff | internal/cleanup/runner.go:231-243 | an ID is selected exactly when a listed resource with it is owned and unprotected |
| RunnerSafety.UnselectedIsNeverDeleted | internal/cleanup/runner.go:29-132 | a resource the ownership rule does not select is never the target of a DELETE |
| RunnerSafety.OtherClustersLoadBalancerSurvives | internal/cleanup/runner.go:192-229 | a load balancer tagged for a Service of another cluster is never deleted, even if one name is an underscore prefix of the other |
| RunnerSafety.SharedVIPIsProtected | internal/cleanup/runner.go:154-177 | a floating IP on the VIP port of a protected load balancer is never deleted |
| RunnerSafety.UnknownVIPBlocksDeletion | internal/cleanup/runner.go:155-160 | a protected load balancer without a VIP port fails the run before any DELETE |
| RunnerSafety.UnattachedIsNeverProtected | internal/cleanup/runner.go:155-178 | past the preflight, a matching unattached floating IP is always selected |
| RunnerSafety.UnownedResourceSurvives | internal/cleanup/runner.go:29-132 | whatever the answers, even applied but refused DELETEs, a run keeps every unselected resource |
| OwnedText.EndsInNameIff | internal/cleanup/runner.go:187-199 | a text that ends in the marker and a cluster's name also ends in the marker and another name exactly if the first name does itself; the other name does not contain the marker |
| OwnedText.OtherClustersFloatingIPSurvives | internal/cleanup/runner.go:187-190 | a floating IP whose description ends in another cluster's name is never the target of a DELETE, with that exception |
| OwnedText.MarkedNameIsConfused | internal/cleanup/runner.go:187-190 | the exception is real: an address of "b from cluster a" is selected for "a" |
| OwnedText.OwnFloatingIPIsSelected | internal/cleanup/runner.go:167-190 | one described as OCCM does for this cluster is selected unless its port is protected |
| OwnedText.OtherClustersSecurityGroupSurvives | internal/cleanup/runner.go:196-199 | the same for security groups of another cluster |
| OwnedText.OwnSecurityGroupIsSelected | internal/cleanup/runner.go:196-199 | a security group described for this cluster is selected |
| OwnedText.ForeignTextSurvives | internal/cleanup/runner.go:187-199 | descriptions that do not begin as OCCM's are nobody's |
| OwnedText.OtherNamesSurvive | internal/cleanup/runner.go:192-194 | a load balancer whose name does not begin as this cluster's survives every run |
| OwnedText.OwnLoadBalancerIsSelected | internal/cleanup/runner.go:147-165 | one named for this cluster whose reserved tags are all of its own Services is selected |
| OwnedText.MissingIDBlocksDeletion | internal/cleanup/runner.go:151-174 | a load balancer or floating IP of this cluster without an ID fails the run before any DELETE of any kind |
| OwnedText.OtherMetadataSurvives | internal/cleanup/runner.go:201-208 | a volume or snapshot that names another cluster or none, and a volume marked to be kept, is never the target of a DELETE |
| OwnedText.OwnMetadataIsSelected | internal/cleanup/runner.go:201-208 | one that names this cluster and is not marked is selected |
| Convergence.CleanedExactly | internal/cleanup/runner.go:139-208 | the final inventory lacks exactly the owned, unprotected, policy-enabled resources of the initial one |
| Convergence.CleaningAdvances | internal/cleanup/runner.go:57-131 | cleaning one kind lowers the number of phases by one and keeps the final inventory |
| Convergence.HonouredRun | internal/cleanup/runner.go:29-132 | against a cloud that honours DELETEs a run cleans the current kind and waits, or completes and changes nothing |
| Convergence.RunUntilComplete | internal/cleanup/runner.go:29-132 | repeating runs waits once per phase, at most five times or three, and ends with exactly the owned resources gone |
| ApiErrors.AsIsFirst | internal/openstack/apierrors/delete.go:90-102 | the errors.As search finds the first node of the preorder listing |
| ApiErrors.FailureIsSeenIff | internal/openstack/apierrors/delete.go:107-111 | a failed reauthentication is seen exactly when the tree reaches one and no nil pointer of the type comes first |
| ApiErrors.DeletedIff | internal/openstack/apierrors/delete.go:18-45 | by positions in the preorder listing: a DELETE counts as done exactly when no failed reauthentication counts and the DELETE's own answer has a status that says so, 2xx or 404, for a credential 204 or 404 |
| ApiErrors.FailedReauthenticationDeletedIff | internal/openstack/apierrors/delete.go:104-119 | an error that reaches a failed reauthentication is a completed deletion exactly when a nil pointer of the type comes first and its answer says deleted; never without a nil pointer |
| ApiErrors.NilPointerHidesFailure | internal/openstack/apierrors/delete.go:107-116 | a tree where that happens, for both classifiers |
| ApiErrors.ConfirmedIff | internal/openstack/apierrors/delete.go:29-45 | a credential DELETE is confirmed exactly when it returned no error or its own answer is 204 or 404 and no failed reauthentication counts |
| ApiErrors.PreservedCausesAreReached | internal/openstack/apierrors/delete.go:47-74 | what a reauthentication wrapper hides, its answer and its failure, is found after preserving |
| ApiErrors.NothingIsLost | internal/openstack/apierrors/delete.go:47-74 | every cause that could be found in an error is still found in its classification |
| ApiErrors.PendingIff | internal/openstack/apierrors/delete.go:26-88 | pending is added exactly for a target 400 or 409, forbidden exactly for a credential target 403 |
| ApiErrors.StatusStaysFirstIff | internal/openstack/apierrors/delete.go:90-158 | exactly when the DELETE's status is the one found after a failed reauthentication is preserved |
| ApiErrors.ValueStatusStaysFirst | internal/openstack/apierrors/delete.go:90-158 | a status the DELETE's answer holds by value is the one found, unless the wrapper holds another |
| ApiErrors.StatusCanBeOvertaken | internal/openstack/apierrors/delete.go:90-158 | a 404 behind a pointer gives way to the 401 of the reauthentication |
| ApiErrors.WrappingChangesNothing | internal/openstack/client/client.go:268-290 | wrapping and redaction keep every search, both classifications with their marks and causes, and the decision at the top for the error and for its class |
| ApiErrors.DecideIff | internal/controller/openstackcluster_controller.go:142-153 | an error ends the reconcile exactly if it carries the pause sentinel, and is otherwise pending exactly if it carries that one |
| ApiErrors.ServiceAnswerIff | internal/openstack/network/service.go:155-170 | the runner sees a wrapped answer as accepted or pending exactly for the answers that mean so |
| Pagination.ExtractLoadBalancerFields | internal/openstack/loadbalancer/service.go:112-176 | succeeds exactly when every raw item has well-typed tags and VIP port, and returns them by index |
| Pagination.ExtractAttachedPortIDs | internal/openstack/network/service.go:114-152 | succeeds exactly when every raw item has a port that is text or null, and returns them by index |
| Pagination.HandlePage | internal/openstack/loadbalancer/service.go:66-99 | the page callback of each of the five listings keeps the in-project items, each with its own raw fields, or fails |
| Pagination.ListAll | internal/openstack/network/service.go:57-112 | the pager loop computes the listing the next lemmas are about |
| Pagination.ListingIff | internal/openstack/pageutil/collection_page.go:34-87 | a listing succeeds exactly when the chain was read to its end, empty intermediate pages included, and is then the pages' resources in order |
| Pagination.InventoryIff | internal/openstack/loadbalancer/service.go:53-105 | a successful listing read the chain to one end and holds exactly the in-project items of every page up to it, each built from its own decoded item and its own raw fields |
| PageText.NothingIsTruncated | internal/openstack/pageutil/collection_page.go:34-87 | by status, next link and fields alone: a successful listing read every page that status 200 and next links lead to, empty ones included, each of them sound, and holds every in-project item of each |
| PageText.SoundChainIsListed | internal/openstack/pageutil/collection_page.go:34-87 | and a chain of such pages, up to one without content or next link, is listed without an error |
| PageText.NothingIsMadeUp | internal/openstack/network/service.go:57-112 | every listed resource is an in-project item of a page, as its fields say |
| PageText.ItemIffShows | internal/openstack/network/service.go:90-103 | which items are kept, exactly by project, tenant, tags and ports |
| Authority.ParsedURL.Normalize | internal/openstack/client/credential.go:82-87 | the in-place edit of host, path and raw path yields the canonical URL, which the next rows pin down |
| Authority.NormalizeInPlace | internal/openstack/client/credential.go:71-89 | the whole function, error cases included, computes the specified normalisation |
| Authority.NormalizeIsIdempotent | internal/openstack/client/credential.go:71-89 | normalising a normalised authority changes nothing, so a recorded one is accepted again |
| Authority.NormalizeIgnoresSpelling | internal/openstack/client/credential.go:82-87 | letter case of the host, the default port, 80 or 443, and a trailing slash do not matter (sections 6.2.2.1 and 6.2.3 of RFC 3986) |
| Authority.NormalizeKeeps | internal/openstack/client/credential.go:70-88 | a lower-case host with another port or none and an escaped path without a trailing slash are kept as they are, deployment path included |
| Authority.NormalizeTellsApart | internal/openstack/client/credential.go:70-88 | so two canonical spellings that differ have different authorities |
| Authority.NormalizeRefusesQuery | internal/openstack/client/credential.go:79-81 | a query, even an empty one, and a fragment are refused |
| Authority.NormalizeRefusesUser | internal/openstack/client/credential.go:79-81 | user information is refused |
| Authority.NormalizeRefusesOtherSchemes | internal/openstack/client/credential.go:76-78 | every scheme but http and https is refused |
| Credentials.DescribedAuthorityIsCanonical | internal/openstack/client/credential.go:57-65 | a described credential has a canonical authority and a supported interface |
| Credentials.SessionBindingIsValidIff | internal/openstack/purge.go:58-81 | a session's binding is accepted exactly when its names are trimmed and not empty and its region is trimmed |
| Json.ReadAfterPrint | internal/controller/credential_cleanup.go:258-266 | reading what the encoder writes returns the value, whatever the strings hold (section 7 of RFC 8259) |
| Checkpoint.DecodeAfterEncode | internal/controller/credential_cleanup.go:52-60 | the strict decoder recovers every field of an encoded checkpoint |
| Checkpoint.TrailingDataIsRejected | internal/controller/credential_cleanup.go:58-60 | an encoded checkpoint followed by anything but blanks is refused |
| Checkpoint.UnknownFieldIsRejected | internal/controller/credential_cleanup.go:53-57 | any text with a field that neither the checkpoint nor its nested binding has is unreadable, wherever the field stands |
| Checkpoint.GoodIff | internal/controller/credential_cleanup.go:61-78 | which decoded checkpoints are accepted, field by field, binding included |
| Checkpoint.SelfAcceptance | internal/controller/credential_cleanup.go:47-79 | a written checkpoint reads back as itself exactly when it passes the validations |
| Lifecycle.IsPaused | internal/controller/lifecycle.go:29-51 | the loop answers whether the object or an owning Cluster is paused, and fails only on an unreadable owner |
| Lifecycle.PausedIff | internal/controller/lifecycle.go:29-62 | by the fields: the annotation, or an owner reference of the right group and kind to an existing Cluster of that UID with spec.paused or the annotation |
| Lifecycle.OwnerClusterKeys | internal/controller/lifecycle.go:73-81 | the index keys of exactly the Cluster owners, in order |
| Lifecycle.OwnerKeysAreExact | internal/controller/lifecycle.go:83-85 | keys of different names or UIDs differ |
| Lifecycle.OnlyOwnedAreWoken | internal/controller/lifecycle.go:117-132 | a wake-up enqueues exactly the objects filed under the key |
| Lifecycle.RequestsForCluster | internal/controller/lifecycle.go:113-132 | one request for every object filed under the Cluster's key |
| Lifecycle.NoLostWakeUp | internal/controller/lifecycle.go:87-95 | an update of one Cluster that flips a pause passes the predicate and maps to the object from the old or the new Cluster |
| Lifecycle.NoLostWakeUpOnCreateOrDelete | internal/controller/lifecycle.go:106-109 | so does a Cluster that appears or disappears |
| Lifecycle.HasOtherSecretReferences | internal/controller/credential_cleanup.go:203-222 | the loop answers whether another object names the same Secret |
| Lifecycle.OtherReferenceIff | internal/controller/credential_cleanup.go:209-216 | another reference, by the fields: another UID, the same Secret name and a Secret as identity |
| Lifecycle.SecretIndexAgrees | internal/controller/lifecycle.go:64-71 | the direct list and the Secret index agree on that |
| Objects.RemovesOnlyOurs | internal/controller/openstackcluster_controller.go:169-171 | removing the finalizer leaves the others, in order |
| Reconciler.Api.Cleanup | internal/openstack/purge.go:148-185 | one run of the cleanup, with Waiting turned into pending and every failure into an error |
| Reconciler.Api.DeleteApplicationCredential | internal/openstack/purge.go:133-142 | the DELETE goes out only for the session's own ID, and succeeds exactly when the classification of its answer is empty; otherwise that classification comes back, wrapped and redacted |
| Reconciler.CheckCleanupInputs | internal/controller/credential_cleanup.go:274-310 | Secret, then object, then pause, then sole finalizer, with the errors of each, as in the state machine; PauseSafety.SecretCheckIff and ScopeText.SameInputsIff say what the comparisons decide |
| Reconciler.FinishCleanup | internal/controller/openstackcluster_controller.go:163-178 | the finalizer goes under the lock of the object just checked |
| Reconciler.SaveCredentialCheckpoint | internal/controller/credential_cleanup.go:253-271 | the checkpoint is written under the same lock |
| Reconciler.ResumeCredentialCleanup | internal/controller/credential_cleanup.go:142-201 | both recorded phases behave as the state machine from there on |
| Reconciler.VerifyAndRecord | internal/controller/credential_cleanup.go:105-139 | so does the path without a checkpoint |
| Reconciler.ReconcileDelete | internal/controller/credential_cleanup.go:81-140 | so does the whole deletion path |
| Reconciler.AddFinalizer | internal/controller/openstackcluster_controller.go:181-203 | so does adoption |
| Reconciler.Reconcile | internal/controller/openstackcluster_controller.go:103-154 | a reconcile, against any interference and any answers, changes the world, records events and ends as the state machine does; PauseSafety says what that machine has checked before each call |
| Execution.CallsRunOut | internal/controller/openstackcluster_controller.go:103-154 | every API call brings a reconcile closer to its end, whatever is answered |
| Execution.ReconcileIsBounded | internal/controller/openstackcluster_controller.go:103-154 | a reconcile makes at most thirteen API calls, a cleanup counted as one |
| Execution.ReconcileExtendsRun | internal/controller/openstackcluster_controller.go:103-154 | a reconcile from a reachable state is a run of the protocol |
| StepSafety.RunsAreSafe | internal/controller/credential_cleanup.go:81-310 | the protocol's invariant holds in every state of every run, for any number of reconciles |
| ProtocolTheorems.WriteAheadOrder | internal/controller/credential_cleanup.go:81-201 | before a first record a complete cleanup by the same reconcile; before a credential DELETE also that record; before a second record also the DELETE and an answer that confirms it for the recorded binding, and the same before a Secret DELETE or a finalizer removal; no Secret DELETE after the removal |
| ProtocolTheorems.FinalizerRemovalMeansNothingLeft | internal/controller/openstackcluster_controller.go:163-178 | when the finalizer goes, complete inventories for exactly the object's name and volumes policy had nothing owned left; without a checkpoint, in the same reconcile and for the same generation |
| ProtocolTheorems.NothingLeftMeansNothingOwned | internal/cleanup/runner.go:187-208 | in those inventories no resource is one the ownership rule selects |
| Inventories.FinalizerRemovalMeansCleanPages | internal/controller/openstackcluster_controller.go:163-178 | when the finalizer goes and the cleanup's inventories are what the listings returned, every enabled kind's page chain was read to its end and no in-project item of any page is owned |
| ProtocolTheorems.PatchesCommitOnTheStoredObject | internal/controller/credential_cleanup.go:266-310 | every patch commits on the object stored at that instant and changes nothing else of it; a record, and a removal on the checkpoint path, only while the Janitor's finalizer is the only one; adoption only on an object that is not being deleted |
| ProtocolTheorems.ReconcilesAreDistinct | internal/controller/openstackcluster_controller.go:103-154 | the identity that ties a cleanup to a removal stands for one reconcile only |
| ProtocolTheorems.CheckpointMonotonicity | internal/controller/credential_cleanup.go:253-296 | over any run the record of a UID goes from nothing to the first phase to the second, with the first stored in between, and is otherwise frozen |
| ProtocolTheorems.FirstRecordIsStarted | internal/controller/credential_cleanup.go:120-139 | a step that gives an object its record gives it the first phase |
| ProtocolTheorems.SavedCheckpointIsAccepted | internal/controller/credential_cleanup.go:224-271 | in every run a committed checkpoint reads back as written and passes the binding check with the Secret this reconcile read, hence in the next one while those inputs stay |
| ProtocolTheorems.RecordsOfOneUIDAgree | internal/controller/credential_cleanup.go:253-271 | all records ever written for a UID agree on everything but the phase |
| ProtocolTheorems.SecretIdentity | internal/controller/credential_cleanup.go:194-249 | the only Secret a step can remove or mark is the one this reconcile read, matched against the record in force, and locked by UID and resourceVersion |
| Sharing.SharedSecretSafety | internal/controller/credential_cleanup.go:160-193 | if an unshared Secret stays unshared once deletion has begun, no reconcile is about to send a credential or Secret DELETE while another UID references the Secret |
| Sharing.SharedSecretSurvives | internal/controller/credential_cleanup.go:160-222 | the same at the instant a step changes the credentials or the Secrets |
| ScopeText.RequestIsEffective | internal/controller/openstackcluster_controller.go:230-253 | the cleanup is asked for the name of the label, else of the object, and for volumes exactly if the annotation, else the operator's default, says so |
| ScopeText.KeptVolumesSurvive | internal/cleanup/runner.go:95-97 | a cleanup not asked for volumes sends no DELETE for one, nor for a snapshot |
| ScopeText.FinalizerRemovalMeansNoneByText | internal/controller/openstackcluster_controller.go:163-178 | when the finalizer goes, an earlier cleanup of the object listed nothing that OCCM or CSI made for its effective name, but for attached addresses, tagged load balancers and kept volumes |
| ScopeText.SessionIff | internal/openstack/client/credential.go:30-67 | a session is opened exactly with an application credential of the effective cloud entry that still exists, bound to every field of it and to its token's user and project |
| ScopeText.BindingMatchesIff | internal/controller/credential_cleanup.go:224-251 | the binding check, field by field of object, Secret and cloud entry |
| ScopeText.MissingSecretMatchesIff | internal/controller/credential_cleanup.go:230-235 | a missing Secret passes it only in the second phase |
| ScopeText.SameInputsIff | internal/controller/credential_cleanup.go:285-297 | the comparison of the object, field by field |
| PauseSafety.CleanupFollowsAPauseCheck | internal/controller/openstackcluster_controller.go:114-140 | a reconcile about to run the cleanup has found this object unpaused, deleting, with the finalizer, a name and a direct identity Secret |
| PauseSafety.CleanedObjectsWereUnpaused | internal/controller/openstackcluster_controller.go:114-140 | the same of every complete cleanup in the trace of any run |
| PauseSafety.SecretCheckIff | internal/controller/credential_cleanup.go:275-283 | the Secret comparison passes exactly when the Secret stands as it was read, or is missing as it was |
| PauseSafety.DeletesFollowALook | internal/controller/credential_cleanup.go:157-193 | every credential or Secret DELETE follows, in the same reconcile, a look that found the Secret exactly as it was matched, and one that found the object unpaused, in the scope first read and without another finalizer |
| PauseSafety.PatchedObjectIsNotPaused | internal/controller/credential_cleanup.go:274-309 | a patch commits on an object without a pause annotation, whose owners this reconcile found unpaused while the object was as it is, after it found the Secret exactly as matched; an adoption is of the object the reconcile began with |
| Blocked.BlockedForEver | internal/controller/credential_cleanup.go:47-79 | with an unreadable checkpoint, or the first phase recorded and the credential or the Secret gone, and no reconcile of the object in flight, later ones write nothing and the object stays exactly as others leave it |
| Blocked.NewReconcilesAreBlocked | internal/controller/credential_cleanup.go:47-79 | with older reconciles still in flight, every one begun since writes nothing while the object carries that text and the cause lasts |
| Blocked.CauseLasts | internal/controller/credential_cleanup.go:230-235 | an unreadable checkpoint and a missing recorded Secret are such causes for ever |
| Blocked.LostAnswerBlocks | internal/controller/credential_cleanup.go:167-172 | a credential DELETE that took effect leads into that state, whatever is answered, and its reconcile goes on only if the answer confirms it |
| Verdicts.IdleOnlyWhenDone | internal/controller/openstackcluster_controller.go:103-154 | a reconcile that does not come back is one whose object is gone, was found paused, needs nothing or had its finalizer settled by it |
| Verdicts.IdleWhenNothingToDo | internal/controller/openstackcluster_controller.go:103-154 | and in the first three cases it does end there, without a write |
| Verdicts.WaitingIsLookedAtAgain | internal/openstack/purge.go:173-179 | while OpenStack still deletes, the object is looked at again and nothing is recorded; a failed cleanup is retried |
| Verdicts.KeepPolicyFinishes | internal/controller/credential_cleanup.go:106-111 | without the delete policy the finalizer goes although others are there, and they stay |
| Verdicts.QuietAdoption | internal/controller/openstackcluster_controller.go:122-134 | one undisturbed reconcile of a live, unpaused object without the finalizer adds it |
| EndToEnd.RecordSettles | internal/controller/credential_cleanup.go:224-251 | undisturbed, an object with a record that fits is ready for its next reconcile |
| EndToEnd.ReconcileAdvances | internal/controller/credential_cleanup.go:81-201 | every undisturbed reconcile lowers by one the rank over phases left, recorded phase and Secret presence, towards the same final state |
| EndToEnd.FinalizerGoes | internal/controller/credential_cleanup.go:81-201 | undisturbed, the object is gone after at most nine reconciles, seven when volumes are kept, and not before its rank is used up; OpenStack lost exactly what was owned, the bound credential and, under its policy, the Secret are gone, every other object is as it was |
| EndToEnd.FinalizerGoesInRun | internal/controller/credential_cleanup.go:81-201 | these reconciles are a run of the protocol from any reachable state in which the deletion is underway |
| Example.SomeDeletionIsUnderway | internal/controller/credential_cleanup.go:81-201 | the hypotheses of the end-to-end result are met by a concrete object, Secret, credential and cloud entry |
| Overlap.OverlappingDeletionsPreserve | internal/controller/credential_cleanup.go:132-138 | from every reachable state with two such deletions that share a Secret, a run in which their whole reconciles overlap finishes both and keeps every credential and Secret |

## Left out

- The manager, leader election, metrics, Events, logging and `cmd/main.go`: plumbing without a hard property.
- HTTP, TLS, catalog, token refresh and the Keystone calls inside a session: seen only through what a session yields.
- The DELETE requests of the services, and the raw HTTP of the Keystone DELETE: seen through their error trees only.
- Nil-service checks, environment readers, default getters, `maxRetryDelay`: single-branch facts.
- Clocks, backoff and the length of `RequeueAfter`: a verdict says only whether the object is looked at again, retried or left.
- The text of errors: they are told apart only where the code tells them apart.
- Namespaces: one namespace is modelled; no step of the protocol reaches across two.
- `secret.Data["cacert"]`: it only configures TLS.
- The cached client's delay in `requestsForReference`: the list it returns is taken as given.
- A pause or a recreated Secret that comes after `checkCleanupInputs` has looked: the object's resourceVersion does not cover them and nothing is claimed.
- A floating IP on a load balancer whose name does not match: not protected, and nothing is claimed.
- Sharing.SharedSecretSafety: needs its hypothesis, because the reference check and the DELETE are two calls and another object may start to use the Secret in between.
- Blocked.BlockedForEver: supposes that no reconcile of the object is in flight when the state begins, because an older one may still commit its own confirmation; `Blocked.NewReconcilesAreBlocked` drops that and supposes instead that the text stays.
- EndToEnd.FinalizerGoes: supposes the quiet environment it names; progress under interference is not claimed.
- Inventories.FinalizerRemovalMeansCleanPages: the link from a cleanup's inventories to page chains is a hypothesis about what OpenStack held, since a cleanup is one step; `Pagination.ListAll` is what computes those listings.
- The sequence of API calls inside one cleanup is not interleaved with the protocol's steps: a cleanup is one step whose inventory and answers are arbitrary.
