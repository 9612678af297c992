/** One reconcile from start to end, against an outside that may change the world before every
    API call and answer it in any way. */
module Execution {
  import opened Results
  import opened Credentials
  import opened Objects
  import opened Lifecycle
  import opened Checkpoint
  import opened Runner
  import opened RunnerSafety
  import opened Protocol
  import opened Evolution
  import opened Invariants
  import opened StepSafety

  /** What others do before the n-th API call, and how it is answered. */
  datatype Outside = Outside(disturb: (nat, World) -> World, replies: nat -> Reply)

  /** The world, the number of API calls so far, and the events so far. */
  datatype Frame = Frame(world: World, calls: nat, events: seq<Event>)

  function Disturbed(o: Outside, f: Frame): World {
    o.disturb(f.calls, f.world)
  }

  function Taken(o: Outside, id: nat, f: Frame, w: Worker): Transition
    requires !w.Done?
  {
    Step(Disturbed(o, f), id, w, o.replies(f.calls))
  }

  function NextFrame(o: Outside, id: nat, f: Frame, w: Worker): Frame
    requires !w.Done?
  {
    Frame(Taken(o, id, f, w).world, f.calls + 1, f.events + Taken(o, id, f, w).events)
  }

  /** How many API calls a worker can still make. */
  function CallsLeft(w: Worker): nat {
    match w
    case Start(_) => 13
    case CheckPause(_) => 12
    case Adopt(_) => 3
    case AdoptCheckPause(_) => 2
    case AdoptPatch(_) => 1
    case ReadSecret(_) => 11
    case Authenticate(_, _) => 7
    case Verify(_, _, _) => 6
    case CheckReferences(_, _, _) => 5
    case Resume(_, _, _) => 10
    case RecheckSecret(_, _, goal) => 3 + AfterPauseCalls(goal)
    case RecheckCluster(_, _, goal) => 2 + AfterPauseCalls(goal)
    case RecheckPause(_, _, goal, _) => 1 + AfterPauseCalls(goal)
    case RecheckReferences(_, _, goal) => if goal.Finish? || goal.Save? then 1 else AfterPauseCalls(goal)
    case SendCredentialDelete(_, _, _, _) => 5
    case SendSecretDelete(_, _, _) => 1
    case SendPatch(_, _, _, _) => 1
    case Done(_) => 0
  }

  function AfterPauseCalls(goal: Goal): nat {
    match goal
    case Finish(_) => 1
    case Save(_) => 1
    case DeleteSecret(_) => 2
    case DeleteCredential(_, _) => 6
  }

  /** Every API call brings the reconcile closer to its end, whatever is answered. */
  lemma CallsRunOut(wd: World, id: nat, w: Worker, reply: Reply)
    requires !w.Done?
    ensures CallsLeft(Step(wd, id, w, reply).worker) < CallsLeft(w)
  {
    hide RunSpec, Encode, PutCluster, RemoveSecret, Paused, OtherReferences, OpenSession, ReadCheckpoint, BindingMatches,
         SameInputs, SameSecret, FirstState, ValidateBinding;
  }

  function Drive(o: Outside, id: nat, f: Frame, w: Worker): (Frame, Verdict)
    decreases CallsLeft(w)
  {
    if w.Done? then (f, w.verdict)
    else
      CallsRunOut(Disturbed(o, f), id, w, o.replies(f.calls));
      Drive(o, id, NextFrame(o, id, f, w), Taken(o, id, f, w).worker)
  }

  /** A reconcile makes at most thirteen API calls, counting one cleanup as one. */
  lemma {:induction false} ReconcileIsBounded(o: Outside, id: nat, f: Frame, w: Worker)
    ensures Drive(o, id, f, w).0.calls <= f.calls + CallsLeft(w)
    ensures f.events <= Drive(o, id, f, w).0.events
    decreases CallsLeft(w)
  {
    hide Step, CallsLeft;
    if w.Done? {
      DoneTakesNoCalls(w);
    } else {
      CallsRunOut(Disturbed(o, f), id, w, o.replies(f.calls));
      ReconcileIsBounded(o, id, NextFrame(o, id, f, w), Taken(o, id, f, w).worker);
    }
  }

  lemma DoneTakesNoCalls(w: Worker)
    requires w.Done?
    ensures CallsLeft(w) == 0
  {
  }

  /** A call that committed nothing. */
  function Heard(o: Outside, f: Frame): Frame {
    Frame(Disturbed(o, f), f.calls + 1, f.events)
  }

  // ---------- one call is one step ----------

  lemma ReadStep(o: Outside, id: nat, f: Frame, w: Worker)
    requires IsRead(w)
    ensures Drive(o, id, f, w) ==
      if o.replies(f.calls).Normal? then Drive(o, id, Heard(o, f), StepRead(Disturbed(o, f), w)) else (Heard(o, f), Retry)
  {
    assert f.events + [] == f.events;
    hide StepRead, CallsLeft;
  }

  lemma WriteStep(o: Outside, id: nat, f: Frame, w: Worker)
    requires !IsRead(w) && !w.Done?
    ensures Drive(o, id, f, w) == Drive(o, id, NextFrame(o, id, f, w), Taken(o, id, f, w).worker)
  {
    hide Step, CallsLeft;
  }

  lemma DoneDrives(o: Outside, id: nat, f: Frame, v: Verdict)
    ensures Drive(o, id, f, Done(v)) == (f, v)
  {
  }

  /** Where a reconcile goes on once its inputs are checked. */
  function AfterChecks(obs: Cluster, seen: Option<Secret>, goal: Goal, latest: Cluster): Worker {
    if goal.Finish? || goal.Save? then SendPatch(obs, seen, goal, latest) else RecheckReferences(obs, seen, goal)
  }

  // ---------- a reconcile is a run ----------

  /** Others keep to what the environment may do. */
  ghost predicate Lawful(o: Outside) {
    forall n: nat, wd :: Wellformed(wd) ==> EnvironmentStep(wd, o.disturb(n, wd))
  }

  function Last(run: seq<System>): System
    requires run != []
  {
    run[|run| - 1]
  }

  lemma RunIsNotEmpty(run: seq<System>)
    requires IsRun(run)
    ensures run != []
  {
    hide Next, Initial;
  }

  lemma RunStep(run: seq<System>, i: nat)
    requires IsRun(run) && i + 1 < |run|
    ensures Next(run[i], run[i + 1])
  {
    hide Next, Initial;
  }

  lemma ExtendRun(run: seq<System>, s: System)
    requires IsRun(run) && Next(Last(run), s)
    ensures IsRun(run + [s])
  {
    hide Next;
    var run' := run + [s];
    forall i | 0 <= i < |run'| - 1
      ensures Next(run'[i], run'[i + 1])
    {
      if i < |run| - 1 {
        assert Next(run[i], run[i + 1]);
      }
    }
  }

  /** One call of a reconcile is two steps of the system: others move, then the worker does. */
  lemma CallFollowsRun(o: Outside, id: nat, f: Frame, w: Worker, run: seq<System>) returns (run': seq<System>)
    requires IsRun(run) && Lawful(o) && id in Last(run).workers && Last(run).workers[id] == w && !w.Done?
    requires f.world == Last(run).world
    ensures run <= run' && IsRun(run')
    ensures var t, s := Taken(o, id, f, w), Last(run');
      && s.world == t.world && id in s.workers && s.workers[id] == t.worker && s.trace == Last(run).trace + t.events
      && s.nextID == Last(run).nextID
  {
    assert run != [];
    var s := Last(run);
    hide IsRun, Step;
    RunIsWellformed(run);
    var s1 := s.(world := Disturbed(o, f));
    assert EnvironmentMoves(s, s1) by {
      hide Wellformed, EnvironmentStep;
    }
    hide EnvironmentStep, Wellformed, Lawful;
    ExtendRun(run, s1);
    var t := Taken(o, id, f, w);
    var s2 := s1.(world := t.world, workers := s1.workers[id := t.worker], trace := s1.trace + t.events);
    assert Works(s1, s2, id, o.replies(f.calls));
    ExtendRun(run + [s1], s2);
    run' := run + [s1] + [s2];
  }

  /** A reconcile that starts in a reachable state takes the system along a run of the protocol,
      whatever others do between its calls: what holds in every run holds after it. */
  lemma {:induction false} DriveFollowsRun(o: Outside, id: nat, f: Frame, w: Worker, run: seq<System>) returns (run': seq<System>)
    requires IsRun(run) && Lawful(o) && id in Last(run).workers && Last(run).workers[id] == w
    requires f.world == Last(run).world
    ensures run <= run' && IsRun(run')
    ensures var after := Drive(o, id, f, w).0;
      after.world == Last(run').world && f.events <= after.events
        && Last(run).trace + after.events[|f.events|..] == Last(run').trace
        && Last(run').nextID == Last(run).nextID
    decreases CallsLeft(w)
  {
    assert run != [];
    hide IsRun, Step, CallsLeft, Lawful;
    ReconcileIsBounded(o, id, f, w);
    if w.Done? {
      run' := run;
      assert f.events[|f.events|..] == [];
    } else {
      var t := Taken(o, id, f, w);
      var run1 := CallFollowsRun(o, id, f, w, run);
      CallsRunOut(Disturbed(o, f), id, w, o.replies(f.calls));
      run' := DriveFollowsRun(o, id, NextFrame(o, id, f, w), t.worker, run1);
      EventsJoin(Last(run).trace, f.events, t.events, Drive(o, id, f, w).0.events);
    }
  }

  lemma RunIsWellformed(run: seq<System>)
    requires IsRun(run)
    ensures Wellformed(Last(run).world)
  {
    RunsAreSafe(run, |run| - 1);
  }

  lemma EventsJoin(tr: seq<Event>, before: seq<Event>, now: seq<Event>, all: seq<Event>)
    requires before + now <= all
    ensures tr + now + all[|before + now|..] == tr + all[|before|..]
  {
    assert all[|before|..] == now + all[|before + now|..];
  }

  /** Every execution of a reconcile is a run of the protocol. */
  lemma ReconcileExtendsRun(o: Outside, name: string, run: seq<System>)
    requires IsRun(run) && Lawful(o)
    ensures var s := Last(run);
      var after := Drive(o, s.nextID, Frame(s.world, 0, []), Start(name)).0;
      exists run' :: run <= run' && IsRun(run') && Last(run').world == after.world && Last(run').trace == s.trace + after.events
        && Last(run').nextID == s.nextID + 1
  {
    assert run != [];
    hide IsRun, Step, CallsLeft, Lawful, Drive;
    var s := Last(run);
    var s1 := s.(workers := s.workers[s.nextID := Start(name)], nextID := s.nextID + 1);
    assert Starts(s, s1, name);
    ExtendRun(run, s1);
    var run' := DriveFollowsRun(o, s.nextID, Frame(s.world, 0, []), Start(name), run + [s1]);
    var after := Drive(o, s.nextID, Frame(s.world, 0, []), Start(name)).0;
    assert after.events[0..] == after.events;
    assert run <= run';
  }
}
