/** Error trees and what a DELETE's answer means (internal/openstack/apierrors/delete.go).

    A tree is what errors.Is and errors.As can walk: `Wrap` stands for every error with an
    Unwrap method, with one cause or several. Gophercloud's reauthentication errors have none,
    so the walk stops at them. */
module ApiErrors {
  import opened Results
  import opened Runner

  /** The errors that are told apart by errors.Is; `NotFound` is the API server's. */
  datatype Sentinel = DeletePending | CredentialForbidden | CleanupPaused | NotFound

  datatype Tree =
    | Text(message: string)
    | Known(sentinel: Sentinel)
    | Code(actual: int)
    | CodePointer(code: Option<int>)
    | Unable(node: Option<Failed>)
    | After(original: Option<Option<Tree>>)
    | Wrap(causes: seq<Tree>)

  /** A failed reauthentication: the answer that made it necessary, and why it failed. In the
      pointer types an outer None is a nil pointer. */
  datatype Failed = Failed(target: Option<Tree>, reauthentication: Option<Tree>)

  // ---------- walking a tree ----------

  /** errors.As: the first node in preorder that has the wanted type. */
  function As(e: Tree, wanted: Tree -> bool): (found: Option<Tree>)
    ensures found.Some? ==> wanted(found.value)
    decreases e
  {
    if wanted(e) then Some(e) else if e.Wrap? then AsAny(e.causes, wanted) else None
  }

  function AsAny(es: seq<Tree>, wanted: Tree -> bool): (found: Option<Tree>)
    ensures found.Some? ==> wanted(found.value)
    decreases es
  {
    if es == [] then None
    else
      var found := As(es[0], wanted);
      if found.Some? then found else AsAny(es[1..], wanted)
  }

  /** Every node the walk can reach, in preorder. */
  function Nodes(e: Tree): seq<Tree>
    decreases e
  {
    [e] + (if e.Wrap? then NodesOf(e.causes) else [])
  }

  function NodesOf(es: seq<Tree>): seq<Tree>
    decreases es
  {
    if es == [] then [] else Nodes(es[0]) + NodesOf(es[1..])
  }

  function First(nodes: seq<Tree>, wanted: Tree -> bool): Option<Tree> {
    if nodes == [] then None else if wanted(nodes[0]) then Some(nodes[0]) else First(nodes[1..], wanted)
  }

  lemma {:induction false} FirstOfTwo(a: seq<Tree>, b: seq<Tree>, wanted: Tree -> bool)
    ensures First(a + b, wanted) == if First(a, wanted).Some? then First(a, wanted) else First(b, wanted)
  {
    if a == [] {
      assert a + b == b;
    } else {
      FirstOfTwo(a[1..], b, wanted);
      assert (a + b)[1..] == a[1..] + b;
    }
  }

  /** The recursive search finds the first of the listed nodes. */
  lemma {:induction false} AsIsFirst(e: Tree, wanted: Tree -> bool)
    ensures As(e, wanted) == First(Nodes(e), wanted)
    decreases e
  {
    if e.Wrap? {
      AsAnyIsFirst(e.causes, wanted);
      FirstOfTwo([e], NodesOf(e.causes), wanted);
    }
  }

  lemma {:induction false} AsAnyIsFirst(es: seq<Tree>, wanted: Tree -> bool)
    ensures AsAny(es, wanted) == First(NodesOf(es), wanted)
    decreases es
  {
    if es != [] {
      AsIsFirst(es[0], wanted);
      AsAnyIsFirst(es[1..], wanted);
      FirstOfTwo(Nodes(es[0]), NodesOf(es[1..]), wanted);
    }
  }

  lemma {:induction false} FirstIff(nodes: seq<Tree>, wanted: Tree -> bool)
    ensures First(nodes, wanted).Some? <==> exists n :: n in nodes && wanted(n)
    ensures First(nodes, wanted).Some? ==> First(nodes, wanted).value in nodes && wanted(First(nodes, wanted).value)
  {
    if nodes != [] {
      FirstIff(nodes[1..], wanted);
    }
  }

  // The types and sentinels that are looked for.

  predicate HoldsCode(n: Tree) { n.Code? }

  predicate HoldsCodePointer(n: Tree) { n.CodePointer? }

  predicate HoldsUnable(n: Tree) { n.Unable? }

  predicate HoldsAfter(n: Tree) { n.After? }

  function Names(s: Sentinel): Tree -> bool {
    (n: Tree) => n == Known(s)
  }

  /** errors.Is for a sentinel. */
  predicate Is(e: Tree, s: Sentinel) {
    As(e, Names(s)).Some?
  }

  lemma IsIff(e: Tree, s: Sentinel)
    ensures Is(e, s) <==> Known(s) in Nodes(e)
  {
    AsIsFirst(e, Names(s));
    FirstIff(Nodes(e), Names(s));
  }

  // ---------- the classification ----------

  /** The response code: one held by value wins over one behind a pointer. */
  function ResponseCode(e: Option<Tree>): Option<int> {
    if e.None? then None
    else
      match As(e.value, HoldsCode)
      case Some(byValue) => Some(byValue.actual)
      case None =>
        match As(e.value, HoldsCodePointer)
        case Some(pointer) => pointer.code
        case None => None
  }

  function FirstUnable(e: Tree): Option<Failed> {
    match As(e, HoldsUnable)
    case Some(found) => found.node
    case None => None
  }

  /** The error that came after a successful reauthentication, if the wrapper holds one. */
  function FirstAfter(e: Tree): Option<Tree> {
    match As(e, HoldsAfter)
    case Some(found) => if found.original.Some? then found.original.value else None
    case None => None
  }

  function Cause(e: Option<Tree>): seq<Tree> {
    if e.Some? then [e.value] else []
  }

  /** Makes the errors inside the first reauthentication wrapper part of the tree. */
  function Preserve(e: Option<Tree>): Option<Tree> {
    if e.None? then None
    else
      match FirstUnable(e.value)
      case Some(failed) => Some(Wrap([e.value] + Cause(failed.target) + Cause(failed.reauthentication)))
      case None =>
        match FirstAfter(e.value)
        case Some(response) => Some(Wrap([e.value, response]))
        case None => e
  }

  datatype Parts = Parts(response: Option<Tree>, preserved: Option<Tree>, canClassify: bool)

  function SplitDeleteError(e: Option<Tree>): Parts {
    if e.None? then Parts(None, None, true)
    else
      match FirstUnable(e.value)
      case Some(failed) => Parts(failed.target, Preserve(e), false)
      case None =>
        match FirstAfter(e.value)
        case None => Parts(e, e, true)
        case Some(response) => Parts(Some(response), Preserve(e), true)
  }

  function Mark(s: Sentinel, preserved: Option<Tree>): Option<Tree> {
    Some(Wrap([Known(s)] + Cause(preserved)))
  }

  /** None means that deletion is complete. */
  function ClassifyDelete(e: Option<Tree>): Option<Tree> {
    var parts := SplitDeleteError(e);
    if !parts.canClassify then parts.preserved
    else
      var code := ResponseCode(parts.response);
      if parts.response.None? || (code.Some? && (200 <= code.value < 300 || code.value == 404)) then None
      else if code == Some(400) || code == Some(409) then Mark(DeletePending, parts.preserved)
      else parts.preserved
  }

  function ClassifyApplicationCredentialDelete(e: Option<Tree>): Option<Tree> {
    var parts := SplitDeleteError(e);
    if !parts.canClassify then parts.preserved
    else
      var code := ResponseCode(parts.response);
      if parts.response.None? || code == Some(204) || code == Some(404) then None
      else if code == Some(403) then Mark(CredentialForbidden, parts.preserved)
      else parts.preserved
  }

  // ---------- what the classification means ----------

  /** The answer to the DELETE itself: past a successful reauthentication, the one that followed
      it. */
  function Target(e: Tree): Tree {
    if FirstAfter(e).Some? then FirstAfter(e).value else e
  }

  predicate ReauthenticationFailed(e: Tree) {
    FirstUnable(e).Some?
  }

  /** Of the pointers to a failed reauthentication in the tree, the first is not nil. */
  ghost predicate NoNilAhead(e: Tree) {
    forall k :: 0 <= k < |Nodes(e)| && Nodes(e)[k] == Unable(None) ==>
      exists j :: 0 <= j < k && Nodes(e)[j].Unable? && Nodes(e)[j] != Unable(None)
  }

  lemma {:induction false} FirstPosition(nodes: seq<Tree>, wanted: Tree -> bool) returns (k: nat)
    requires First(nodes, wanted).Some?
    ensures k < |nodes| && nodes[k] == First(nodes, wanted).value && forall j :: 0 <= j < k ==> !wanted(nodes[j])
  {
    if wanted(nodes[0]) {
      k := 0;
    } else {
      k := FirstPosition(nodes[1..], wanted);
      k := k + 1;
    }
  }

  /** A failed reauthentication is seen exactly when the tree reaches one, unless a nil pointer
      of that type comes first. */
  lemma FailureIsSeenIff(e: Tree)
    ensures ReauthenticationFailed(e)
       <==> (exists n :: n in Nodes(e) && n.Unable? && n.node.Some?) && NoNilAhead(e)
  {
    var wanted := HoldsUnable;
    AsIsFirst(e, wanted);
    FirstIff(Nodes(e), wanted);
    if First(Nodes(e), wanted).Some? {
      var k := FirstPosition(Nodes(e), wanted);
      if Nodes(e)[k] == Unable(None) {
        assert !NoNilAhead(e);
      }
    }
  }

  /** The classes read off the parts of an error. */
  lemma ClassesByParts(e: Tree)
    ensures ClassifyDelete(Some(e)).None?
       <==> !ReauthenticationFailed(e)
            && exists c :: ResponseCode(Some(Target(e))) == Some(c) && (200 <= c < 300 || c == 404)
    ensures ClassifyApplicationCredentialDelete(Some(e)).None?
       <==> !ReauthenticationFailed(e) && ResponseCode(Some(Target(e))) in {Some(204), Some(404)}
  {
  }

  // The same by positions in the preorder listing, without the search.

  ghost predicate FirstAt(nodes: seq<Tree>, k: nat, wanted: Tree -> bool) {
    k < |nodes| && wanted(nodes[k]) && forall j :: 0 <= j < k ==> !wanted(nodes[j])
  }

  /** The tree reaches a failed reauthentication, and no nil pointer of that type comes first. */
  ghost predicate FailureCounts(e: Tree) {
    (exists n :: n in Nodes(e) && n.Unable? && n.node.Some?) && NoNilAhead(e)
  }

  /** `t` is the answer to the DELETE itself: what the first reauthentication wrapper holds, or the
      whole error if there is no such wrapper or it holds nothing. */
  ghost predicate AnswerIs(e: Tree, t: Tree) {
    || (exists k: nat :: FirstAt(Nodes(e), k, HoldsAfter) && Nodes(e)[k].original == Some(Some(t)))
    || (t == e && forall k: nat :: FirstAt(Nodes(e), k, HoldsAfter) ==> !(Nodes(e)[k].original.Some? && Nodes(e)[k].original.value.Some?))
  }

  /** The first code held by value, or, if the tree reaches none, the first behind a pointer. */
  ghost predicate StatusIs(t: Tree, c: int) {
    || (exists k: nat :: FirstAt(Nodes(t), k, HoldsCode) && Nodes(t)[k].actual == c)
    || ((forall n :: n in Nodes(t) ==> !n.Code?)
        && exists k: nat :: FirstAt(Nodes(t), k, HoldsCodePointer) && Nodes(t)[k].code == Some(c))
  }

  lemma FirstAtIsFound(e: Tree, wanted: Tree -> bool)
    ensures forall k: nat :: FirstAt(Nodes(e), k, wanted) ==> As(e, wanted) == Some(Nodes(e)[k])
    ensures As(e, wanted).Some? ==> exists k: nat :: FirstAt(Nodes(e), k, wanted)
    ensures As(e, wanted).None? <==> forall n :: n in Nodes(e) ==> !wanted(n)
  {
    AsIsFirst(e, wanted);
    FirstIff(Nodes(e), wanted);
    if As(e, wanted).Some? {
      var k := FirstPosition(Nodes(e), wanted);
      assert FirstAt(Nodes(e), k, wanted);
      forall j: nat | FirstAt(Nodes(e), j, wanted)
        ensures j == k
      {
        assert !(j < k) && !(k < j);
      }
    }
    assert forall j :: 0 <= j < |Nodes(e)| ==> Nodes(e)[j] in Nodes(e);
  }

  lemma TargetIsAnswer(e: Tree, t: Tree)
    ensures AnswerIs(e, t) <==> t == Target(e)
  {
    hide As, Nodes;
    FirstAtIsFound(e, HoldsAfter);
  }

  lemma CodeIsStatus(t: Tree, c: int)
    ensures StatusIs(t, c) <==> ResponseCode(Some(t)) == Some(c)
  {
    hide As, Nodes;
    FirstAtIsFound(t, HoldsCode);
    FirstAtIsFound(t, HoldsCodePointer);
  }

  predicate IsDeleted(c: int) {
    200 <= c < 300 || c == 404
  }

  predicate IsCredentialDeleted(c: int) {
    c == 204 || c == 404
  }

  /** The answer to the DELETE itself has a status that says so. */
  ghost predicate Says(e: Tree, says: int -> bool) {
    exists t, c :: AnswerIs(e, t) && StatusIs(t, c) && says(c)
  }

  lemma SaysTarget(e: Tree, says: int -> bool)
    ensures Says(e, says) <==> exists c :: ResponseCode(Some(Target(e))) == Some(c) && says(c)
  {
    hide AnswerIs, StatusIs, ResponseCode, Target;
    TargetIsAnswer(e, Target(e));
    forall t
      ensures AnswerIs(e, t) <==> t == Target(e)
    {
      TargetIsAnswer(e, t);
    }
    forall c
      ensures StatusIs(Target(e), c) <==> ResponseCode(Some(Target(e))) == Some(c)
    {
      CodeIsStatus(Target(e), c);
    }
  }

  /** A DELETE counts as done exactly when no failed reauthentication counts and the answer to the
      DELETE itself says so: 2xx or 404, for a credential 204 or 404. */
  lemma DeletedIff(e: Tree)
    ensures ClassifyDelete(Some(e)).None? <==> !FailureCounts(e) && Says(e, IsDeleted)
    ensures ClassifyApplicationCredentialDelete(Some(e)).None? <==> !FailureCounts(e) && Says(e, IsCredentialDeleted)
  {
    hide Says, NoNilAhead, Nodes, ResponseCode, Target, ReauthenticationFailed, ClassifyDelete, ClassifyApplicationCredentialDelete;
    ClassesByParts(e);
    FailureIsSeenIff(e);
    SaysTarget(e, IsDeleted);
    SaysTarget(e, IsCredentialDeleted);
  }

  /** A credential DELETE is confirmed: it succeeded with 204, or its own answer is 204 or 404. */
  ghost predicate Confirms(answer: Option<Tree>) {
    answer.None? || (!FailureCounts(answer.value) && Says(answer.value, IsCredentialDeleted))
  }

  lemma ConfirmedIff(answer: Option<Tree>)
    ensures ClassifyApplicationCredentialDelete(answer).None? <==> Confirms(answer)
  {
    if answer.Some? {
      DeletedIff(answer.value);
      hide ClassifyApplicationCredentialDelete, FailureCounts, Says;
    }
  }

  /** The promise about failed reauthentications, exactly: an error that reaches one is a completed
      deletion only when a nil pointer of that type comes first and the answer says deleted. */
  lemma FailedReauthenticationDeletedIff(e: Tree)
    requires exists n :: n in Nodes(e) && n.Unable? && n.node.Some?
    ensures ClassifyDelete(Some(e)).None? <==> !NoNilAhead(e) && Says(e, IsDeleted)
    ensures ClassifyApplicationCredentialDelete(Some(e)).None? <==> !NoNilAhead(e) && Says(e, IsCredentialDeleted)
    ensures Unable(None) !in Nodes(e) ==>
      ClassifyDelete(Some(e)).Some? && ClassifyApplicationCredentialDelete(Some(e)).Some?
  {
    hide Says, Nodes, ClassifyDelete, ClassifyApplicationCredentialDelete;
    DeletedIff(e);
  }

  /** Where the promise fails: a nil pointer ahead of the failure, and a 404. */
  lemma NilPointerHidesFailure()
    ensures var e := Wrap([Unable(None), Unable(Some(Failed(None, None))), Code(404)]);
      && Unable(Some(Failed(None, None))) in Nodes(e) && !NoNilAhead(e)
      && ClassifyDelete(Some(e)).None? && ClassifyApplicationCredentialDelete(Some(e)).None?
  {
    var nil, failed, gone := Unable(None), Unable(Some(Failed(None, None))), Code(404);
    var e := Wrap([nil, failed, gone]);
    ListOfThree(nil, failed, gone);
    var nodes := Nodes(e);
    assert nodes == [e, nil, failed, gone];
    assert nodes[1] == nil && nodes[2] == failed && nodes[3] == gone;
    assert nodes[3].actual == 404 && FirstAt(nodes, 3, HoldsCode);
    assert StatusIs(e, 404);
    assert forall k: nat :: k < |nodes| ==> !HoldsAfter(nodes[k]);
    assert AnswerIs(e, e);
    assert IsDeleted(404) && IsCredentialDeleted(404);
    assert !NoNilAhead(e);
    hide Nodes, AnswerIs, StatusIs, ClassifyDelete, ClassifyApplicationCredentialDelete, NoNilAhead;
    DeletedIff(e);
  }

  lemma ListOfThree(a: Tree, b: Tree, c: Tree)
    requires !a.Wrap? && !b.Wrap? && !c.Wrap?
    ensures Nodes(Wrap([a, b, c])) == [Wrap([a, b, c]), a, b, c]
  {
    NodesOfJoin([a, b], [c]);
    NodesOfJoin([a], [b]);
    NodesOfOne(a);
    NodesOfOne(b);
    NodesOfOne(c);
    assert [a] + [b] + [c] == [a, b, c] && [a] + [b] == [a, b];
  }

  lemma NodesOfOne(e: Tree)
    ensures NodesOf([e]) == Nodes(e)
  {
    assert Nodes(e) + [] == Nodes(e);
  }

  lemma {:induction false} NodesOfJoin(a: seq<Tree>, b: seq<Tree>)
    ensures NodesOf(a + b) == NodesOf(a) + NodesOf(b)
  {
    if a == [] {
      assert a + b == b;
    } else {
      NodesOfJoin(a[1..], b);
      assert (a + b)[1..] == a[1..] + b;
    }
  }

  lemma MarkedNodes(s: Sentinel, e: Tree)
    ensures Nodes(Mark(s, Some(e)).value) == [Mark(s, Some(e)).value, Known(s)] + Nodes(e)
  {
    NodesOfJoin([Known(s)], [e]);
    NodesOfOne(Known(s));
    NodesOfOne(e);
  }

  /** What Preserve adds is inside the wrapper it opens, and it drops nothing. */
  lemma PreservedNodes(e: Tree)
    ensures Preserve(Some(e)).Some?
    ensures forall n :: n in Nodes(e) ==> n in Nodes(Preserve(Some(e)).value)
  {
    match FirstUnable(e) {
      case Some(failed) =>
        NodesOfJoin([e] + Cause(failed.target), Cause(failed.reauthentication));
        NodesOfJoin([e], Cause(failed.target));
        NodesOfOne(e);
      case None =>
        if FirstAfter(e).Some? {
          NodesOfJoin([e], [FirstAfter(e).value]);
          assert [e] + [FirstAfter(e).value] == [e, FirstAfter(e).value];
          NodesOfOne(e);
        }
    }
  }

  lemma JoinedNodes(a: Tree, b: Tree, rest: seq<Tree>)
    ensures forall n :: n in Nodes(b) ==> n in Nodes(Wrap([a, b] + rest))
    ensures forall n :: n in NodesOf(rest) ==> n in Nodes(Wrap([a, b] + rest))
  {
    NodesOfJoin([a, b], rest);
    NodesOfJoin([a], [b]);
    NodesOfOne(b);
    assert [a] + [b] == [a, b];
  }

  /** `t` is inside a wrapper that the walk stops at: the answer or the cause of the failed
      reauthentication that counts, or else the answer that followed a successful one. */
  ghost predicate IsInside(e: Tree, t: Tree) {
    if FailureCounts(e) then
      exists k: nat :: FirstAt(Nodes(e), k, HoldsUnable) && Nodes(e)[k].node.Some?
        && (Nodes(e)[k].node.value.target == Some(t) || Nodes(e)[k].node.value.reauthentication == Some(t))
    else t != e && AnswerIs(e, t)
  }

  /** What the walk could not reach before, it reaches after Preserve. */
  lemma PreservedCausesAreReached(e: Tree, t: Tree, n: Tree)
    requires IsInside(e, t) && n in Nodes(t)
    ensures n in Nodes(Preserve(Some(e)).value)
  {
    FirstAtIsFound(e, HoldsUnable);
    FailureIsSeenIff(e);
    hide As, Nodes, NoNilAhead, AnswerIs;
    match FirstUnable(e) {
      case Some(failed) => UnableCausesAreReached(e, failed, n);
      case None =>
        TargetIsAnswer(e, t);
        JoinedNodes(e, t, []);
        assert [e, t] + [] == [e, t];
    }
  }

  lemma UnableCausesAreReached(e: Tree, failed: Failed, n: Tree)
    requires FirstUnable(e) == Some(failed)
    ensures forall t :: (failed.target == Some(t) || failed.reauthentication == Some(t)) && n in Nodes(t) ==>
      n in Nodes(Preserve(Some(e)).value)
  {
    var target, reauth := Cause(failed.target), Cause(failed.reauthentication);
    NodesOfJoin([e] + target, reauth);
    NodesOfJoin([e], target);
    if failed.target.Some? {
      NodesOfOne(failed.target.value);
    }
    if failed.reauthentication.Some? {
      NodesOfOne(failed.reauthentication.value);
    }
  }

  /** No cause is lost: every error that errors.Is or errors.As could find is still there. */
  lemma NothingIsLost(e: Tree, n: Tree)
    requires n in Nodes(e)
    ensures ClassifyDelete(Some(e)).Some? ==> n in Nodes(ClassifyDelete(Some(e)).value)
    ensures ClassifyApplicationCredentialDelete(Some(e)).Some? ==> n in Nodes(ClassifyApplicationCredentialDelete(Some(e)).value)
  {
    hide Preserve, Nodes, Mark, Target, ResponseCode, SplitDeleteError, ReauthenticationFailed, As;
    PreservedNodes(e);
    var p := Preserve(Some(e)).value;
    MarkIsSome(DeletePending, p);
    MarkIsSome(CredentialForbidden, p);
    MarkedNodes(DeletePending, p);
    MarkedNodes(CredentialForbidden, p);
    SplitPreserves(e);
  }

  lemma MarkIsSome(s: Sentinel, e: Tree)
    ensures Mark(s, Some(e)).Some?
  {
  }

  /** What the response is split from is what Preserve makes. */
  lemma SplitPreserves(e: Tree)
    ensures Preserve(Some(e)).Some?
    ensures var parts := SplitDeleteError(Some(e));
      && parts.preserved == Preserve(Some(e)) && parts.canClassify == !ReauthenticationFailed(e)
      && (parts.canClassify ==> parts.response == Some(Target(e)))
  {
    hide As;
  }

  /** A result is pending exactly when it carried the sentinel already or the DELETE itself was
      answered 400 or 409; forbidden likewise, for 403. */
  lemma PendingIff(e: Tree)
    ensures ClassifyDelete(Some(e)).Some? ==>
      (Is(ClassifyDelete(Some(e)).value, DeletePending)
       <==> Is(Preserve(Some(e)).value, DeletePending)
            || (!ReauthenticationFailed(e) && ResponseCode(Some(Target(e))) in {Some(400), Some(409)}))
    ensures ClassifyApplicationCredentialDelete(Some(e)).Some? ==>
      (Is(ClassifyApplicationCredentialDelete(Some(e)).value, CredentialForbidden)
       <==> Is(Preserve(Some(e)).value, CredentialForbidden)
            || (!ReauthenticationFailed(e) && ResponseCode(Some(Target(e))) == Some(403)))
  {
    SplitPreserves(e);
    hide Preserve, Nodes, Is, Target, ResponseCode, SplitDeleteError, ReauthenticationFailed;
    var p := Preserve(Some(e)).value;
    MarkedNodes(DeletePending, p);
    MarkedNodes(CredentialForbidden, p);
    IsIff(p, DeletePending);
    IsIff(p, CredentialForbidden);
    IsIff(Mark(DeletePending, Some(p)).value, DeletePending);
    IsIff(Mark(CredentialForbidden, Some(p)).value, CredentialForbidden);
  }

  // ---------- which status is found after a failed reauthentication ----------

  lemma {:induction false} AsAnyOfTwo(a: seq<Tree>, b: seq<Tree>, wanted: Tree -> bool)
    ensures AsAny(a + b, wanted) == if AsAny(a, wanted).Some? then AsAny(a, wanted) else AsAny(b, wanted)
  {
    if a == [] {
      assert a + b == b;
    } else {
      AsAnyOfTwo(a[1..], b, wanted);
      assert (a + b)[1..] == a[1..] + b;
    }
  }

  predicate HasValueCode(e: Option<Tree>) {
    e.Some? && As(e.value, HoldsCode).Some?
  }

  /** Whether the status of the DELETE is still the one found after Preserve. Codes held by value
      come first, whatever their place: those around the wrapper, then the DELETE's, then the
      reauthentication's. So a status behind a pointer can be overtaken. */
  lemma StatusStaysFirstIff(e: Tree, target: Tree, reauthentication: Option<Tree>)
    requires FirstUnable(e) == Some(Failed(Some(target), reauthentication))
    requires ResponseCode(Some(target)).Some?
    ensures var code := ResponseCode(Some(target));
      ResponseCode(Preserve(Some(e))) == code
      <==> if HasValueCode(Some(e)) then ResponseCode(Some(e)) == code
           else if HasValueCode(Some(target)) then true
           else if HasValueCode(reauthentication) then ResponseCode(reauthentication) == code
           else As(e, HoldsCodePointer).None? || ResponseCode(Some(e)) == code
  {
    var byValue, byPointer := HoldsCode, HoldsCodePointer;
    var whole := [e] + [target] + Cause(reauthentication);
    assert Preserve(Some(e)) == Some(Wrap(whole));
    forall wanted: Tree -> bool
      ensures AsAny(whole, wanted) ==
        if As(e, wanted).Some? then As(e, wanted) else if As(target, wanted).Some? then As(target, wanted)
        else AsAny(Cause(reauthentication), wanted)
    {
      AsAnyOfTwo([e] + [target], Cause(reauthentication), wanted);
      AsAnyOfTwo([e], [target], wanted);
      assert AsAny([e], wanted) == As(e, wanted) && AsAny([target], wanted) == As(target, wanted);
    }
    assert reauthentication.Some? ==> AsAny(Cause(reauthentication), byValue) == As(reauthentication.value, byValue);
  }

  /** A status held by value stays first, unless the wrapper itself is joined by another. */
  lemma ValueStatusStaysFirst(e: Tree, target: Tree, reauthentication: Option<Tree>)
    requires FirstUnable(e) == Some(Failed(Some(target), reauthentication))
    requires HasValueCode(Some(target)) && !HasValueCode(Some(e))
    ensures ResponseCode(Preserve(Some(e))) == ResponseCode(Some(target))
  {
    hide FirstUnable, Preserve;
    StatusStaysFirstIff(e, target, reauthentication);
  }

  /** It can fail: a 404 behind a pointer gives way to the 401 of the reauthentication. */
  lemma StatusCanBeOvertaken()
    ensures var e := Unable(Some(Failed(Some(CodePointer(Some(404))), Some(Code(401)))));
      ResponseCode(Some(e)).None? && ResponseCode(Some(CodePointer(Some(404)))) == Some(404) && ResponseCode(Preserve(Some(e))) == Some(401)
  {
    var target, reauth := CodePointer(Some(404)), Code(401);
    var e := Unable(Some(Failed(Some(target), Some(reauth))));
    assert As(e, HoldsUnable) == Some(e);
    assert Cause(Some(target)) == [target] && Cause(Some(reauth)) == [reauth];
    assert [e] + [target] + [reauth] == [e, target, reauth];
    assert Preserve(Some(e)) == Some(Wrap([e, target, reauth]));
    assert [e, target, reauth][1..] == [target, reauth] && [target, reauth][1..] == [reauth];
    assert AsAny([e, target, reauth], HoldsCode) == AsAny([target, reauth], HoldsCode);
    assert AsAny([target, reauth], HoldsCode) == AsAny([reauth], HoldsCode);
  }

  // ---------- wrapping on the way up ----------

  /** `outer` is `e` behind any number of single wrappers: %w in fmt.Errorf, or redaction. */
  predicate Wraps(outer: Tree, e: Tree)
    decreases outer
  {
    outer == e || (outer.Wrap? && |outer.causes| == 1 && Wraps(outer.causes[0], e))
  }

  lemma {:induction false} WrappingKeepsSearch(outer: Tree, e: Tree, wanted: Tree -> bool)
    requires Wraps(outer, e) && forall n: Tree :: n.Wrap? ==> !wanted(n)
    ensures As(outer, wanted) == As(e, wanted)
    decreases outer
  {
    if outer != e {
      WrappingKeepsSearch(outer.causes[0], e, wanted);
      assert AsAny(outer.causes, wanted) == As(outer.causes[0], wanted) by {
        assert AsAny(outer.causes[1..], wanted) == None;
      }
    }
  }

  datatype Decision = Accept | LookAgain | Stop | Backoff

  /** What the runner's loop and Reconcile make of an error. */
  function Decide(e: Option<Tree>): Decision {
    if e.None? then Accept
    else if Is(e.value, CleanupPaused) then Stop
    else if Is(e.value, DeletePending) then LookAgain
    else Backoff
  }

  /** Nothing the code looks for can tell the two errors apart. */
  predicate Alike(a: Tree, b: Tree) {
    && As(a, HoldsCode) == As(b, HoldsCode) && As(a, HoldsCodePointer) == As(b, HoldsCodePointer)
    && As(a, HoldsUnable) == As(b, HoldsUnable) && As(a, HoldsAfter) == As(b, HoldsAfter)
    && forall s :: As(a, Names(s)) == As(b, Names(s))
  }

  ghost predicate BothAlike(a: Option<Tree>, b: Option<Tree>) {
    (a.None? <==> b.None?) && (a.Some? ==> Alike(a.value, b.value))
  }

  /** Replacing the first cause by a like one makes a like error. */
  lemma AlikeInside(a: Tree, b: Tree, before: seq<Tree>, after: seq<Tree>)
    requires Alike(a, b)
    ensures Alike(Wrap(before + [a] + after), Wrap(before + [b] + after))
  {
    var x, y := before + [a] + after, before + [b] + after;
    forall wanted: Tree -> bool | As(a, wanted) == As(b, wanted)
      ensures AsAny(x, wanted) == AsAny(y, wanted)
    {
      hide As;
      AsAnyOfTwo(before + [a], after, wanted);
      AsAnyOfTwo(before + [b], after, wanted);
      AsAnyOfTwo(before, [a], wanted);
      AsAnyOfTwo(before, [b], wanted);
      AsAnyOfOne(a, wanted);
      AsAnyOfOne(b, wanted);
    }
  }

  lemma AsAnyOfOne(e: Tree, wanted: Tree -> bool)
    ensures AsAny([e], wanted) == As(e, wanted)
  {
    assert AsAny([e][1..], wanted) == None;
  }

  lemma WrapsAreAlike(outer: Tree, e: Tree)
    requires Wraps(outer, e)
    ensures Alike(outer, e)
  {
    WrappingKeepsSearch(outer, e, HoldsCode);
    WrappingKeepsSearch(outer, e, HoldsCodePointer);
    WrappingKeepsSearch(outer, e, HoldsUnable);
    WrappingKeepsSearch(outer, e, HoldsAfter);
    forall s
      ensures As(outer, Names(s)) == As(e, Names(s))
    {
      WrappingKeepsSearch(outer, e, Names(s));
    }
  }

  lemma AlikeParts(a: Tree, b: Tree)
    requires Alike(a, b)
    ensures ResponseCode(Some(a)) == ResponseCode(Some(b)) && FirstUnable(a) == FirstUnable(b) && FirstAfter(a) == FirstAfter(b)
    ensures (forall s :: Is(a, s) <==> Is(b, s)) && Decide(Some(a)) == Decide(Some(b))
  {
    hide As;
  }

  lemma AlikePreserved(a: Tree, b: Tree)
    requires Alike(a, b)
    ensures Preserve(Some(a)).Some? && Preserve(Some(b)).Some?
    ensures Alike(Preserve(Some(a)).value, Preserve(Some(b)).value)
  {
    AlikeParts(a, b);
    hide Alike, FirstUnable, FirstAfter;
    match FirstUnable(a) {
      case Some(failed) =>
        var rest := Cause(failed.target) + Cause(failed.reauthentication);
        AlikeInside(a, b, [], rest);
        assert [] + [a] + rest == [a] + Cause(failed.target) + Cause(failed.reauthentication);
        assert [] + [b] + rest == [b] + Cause(failed.target) + Cause(failed.reauthentication);
      case None =>
        if FirstAfter(a).Some? {
          var rest := [FirstAfter(a).value];
          AlikeInside(a, b, [], rest);
          assert [] + [a] + rest == [a, FirstAfter(a).value] && [] + [b] + rest == [b, FirstAfter(a).value];
        }
    }
  }

  lemma AlikeMarked(s: Sentinel, a: Tree, b: Tree)
    requires Alike(a, b)
    ensures BothAlike(Mark(s, Some(a)), Mark(s, Some(b)))
  {
    hide Alike;
    AlikeInside(a, b, [Known(s)], []);
    assert [Known(s)] + [a] + [] == [Known(s)] + Cause(Some(a)) && [Known(s)] + [b] + [] == [Known(s)] + Cause(Some(b));
  }

  /** The classifiers see what errors.Is and errors.As see, and nothing else. */
  lemma AlikeClasses(a: Tree, b: Tree)
    requires Alike(a, b)
    ensures BothAlike(ClassifyDelete(Some(a)), ClassifyDelete(Some(b)))
    ensures BothAlike(ClassifyApplicationCredentialDelete(Some(a)), ClassifyApplicationCredentialDelete(Some(b)))
  {
    hide Alike, Preserve, Mark, Target, ResponseCode, SplitDeleteError, ReauthenticationFailed, Is;
    AlikeParts(a, b);
    AlikePreserved(a, b);
    var p, q := Preserve(Some(a)).value, Preserve(Some(b)).value;
    AlikeMarked(DeletePending, p, q);
    AlikeMarked(CredentialForbidden, p, q);
    SplitPreserves(a);
    SplitPreserves(b);
    SameTargetCode(a, b);
  }

  lemma SameTargetCode(a: Tree, b: Tree)
    requires ResponseCode(Some(a)) == ResponseCode(Some(b)) && FirstUnable(a) == FirstUnable(b) && FirstAfter(a) == FirstAfter(b)
    ensures ResponseCode(Some(Target(a))) == ResponseCode(Some(Target(b))) && ReauthenticationFailed(a) == ReauthenticationFailed(b)
  {
    hide ResponseCode, FirstUnable, FirstAfter;
  }

  /** A pause decides first, then a pending deletion. */
  lemma DecideIff(e: Tree)
    ensures Decide(Some(e)) == Stop <==> Known(CleanupPaused) in Nodes(e)
    ensures Decide(Some(e)) == LookAgain <==> Known(CleanupPaused) !in Nodes(e) && Known(DeletePending) in Nodes(e)
    ensures Decide(Some(e)) != Accept && Decide(None) == Accept
  {
    hide Is, Nodes;
    IsIff(e, CleanupPaused);
    IsIff(e, DeletePending);
  }

  lemma WrappedDecides(e: Tree)
    ensures Decide(Some(Wrap([e]))) == Decide(Some(e)) && forall s :: Is(Wrap([e]), s) <==> Is(e, s)
  {
    assert Wraps(Wrap([e]), e);
    WrapsAreAlike(Wrap([e]), e);
    AlikeParts(Wrap([e]), e);
  }

  /** A sentinel alone is found as itself. */
  lemma KnownIs(s: Sentinel)
    ensures forall t :: Is(Known(s), t) <==> t == s
    ensures Decide(Some(Known(s))) == if s == CleanupPaused then Stop else if s == DeletePending then LookAgain else Backoff
  {
  }

  lemma TextDecides(message: string)
    ensures (forall t :: !Is(Text(message), t)) && Decide(Some(Text(message))) == Backoff
  {
  }

  /** Wrapping and redaction change nothing: not what is found in an error, not its class as the
      answer to a DELETE, with the marks and causes that class carries, and not the decision
      taken at the top, for the error or for its class. */
  lemma WrappingChangesNothing(outer: Tree, e: Tree)
    requires Wraps(outer, e)
    ensures Alike(outer, e) && ResponseCode(Some(outer)) == ResponseCode(Some(e)) && (forall s :: Is(outer, s) <==> Is(e, s))
    ensures BothAlike(ClassifyDelete(Some(outer)), ClassifyDelete(Some(e)))
    ensures BothAlike(ClassifyApplicationCredentialDelete(Some(outer)), ClassifyApplicationCredentialDelete(Some(e)))
    ensures Decide(Some(outer)) == Decide(Some(e)) && Decide(ClassifyDelete(Some(outer))) == Decide(ClassifyDelete(Some(e)))
    ensures Decide(ClassifyApplicationCredentialDelete(Some(outer))) == Decide(ClassifyApplicationCredentialDelete(Some(e)))
  {
    hide Alike, ClassifyDelete, ClassifyApplicationCredentialDelete, ResponseCode, Is, Wraps;
    WrapsAreAlike(outer, e);
    AlikeParts(outer, e);
    AlikeClasses(outer, e);
    if ClassifyDelete(Some(e)).Some? {
      AlikeParts(ClassifyDelete(Some(outer)).value, ClassifyDelete(Some(e)).value);
    }
    if ClassifyApplicationCredentialDelete(Some(e)).Some? {
      AlikeParts(ClassifyApplicationCredentialDelete(Some(outer)).value, ClassifyApplicationCredentialDelete(Some(e)).value);
    }
  }

  /** How the runner's DELETE loop reads what a service returns. */
  function RunnerStatus(r: Option<Tree>): Status {
    if r.None? then Accepted else if Is(r.value, DeletePending) then Pending else Refused
  }

  /** The runner's view of one DELETE, through the wrapper the service adds: accepted and pending
      exactly for the answers to the DELETE itself that mean so, refused for anything else. */
  lemma ServiceAnswerIff(e: Tree, outer: Tree)
    requires !Is(Preserve(Some(e)).value, DeletePending)
    requires ClassifyDelete(Some(e)).Some? ==> Wraps(outer, ClassifyDelete(Some(e)).value)
    ensures var code := ResponseCode(Some(Target(e)));
      var status := RunnerStatus(if ClassifyDelete(Some(e)).None? then None else Some(outer));
      && (status == Accepted <==> !ReauthenticationFailed(e) && code.Some? && (200 <= code.value < 300 || code.value == 404))
      && (status == Pending <==> !ReauthenticationFailed(e) && code in {Some(400), Some(409)})
  {
    ClassesByParts(e);
    PendingIff(e);
    if ClassifyDelete(Some(e)).Some? {
      WrappingChangesNothing(outer, ClassifyDelete(Some(e)).value);
    }
    hide Is, Preserve, Target, ResponseCode, ReauthenticationFailed, ClassifyDelete;
  }
}
