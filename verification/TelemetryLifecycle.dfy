/**
 The telemetry lifecycle: reference-counted owners of one pipeline, a retirement fence, and a shutdown
 thread that writes two fields without taking the lock.

 The lock keeps callers apart, but not the shutdown thread, which writes `retiring` and `retired` without
 it. Every access of a caller to these two fields is a step of its own. Accesses to `runtime` and `owners`,
 which only holders of the lock touch, are merged with the step before them; `MergedAccessesCommute` shows
 that nothing the thread does in between could be told apart.
 */
module TelemetryLifecycle {
  import opened Options

  /** How far the shutdown thread of a retired pipeline has come. */
  datatype Phase =
    | Unstarted   // the thread could not be started
    | Stopping    // shutdown is running
    | Broken      // shutdown failed or raised
    | ShutDown    // shutdown returned, nothing written yet
    | Cleared     // the retiring field has been cleared
    | Finished    // the retired event has been set

  /** What the holder of the lock is about to do. */
  datatype Lock =
    | Free
    | Building
    | Withdrawn(pipeline: nat)  // the runtime field no longer names it
    | Named(pipeline: nat)      // the retiring field names it
    | Fenced(pipeline: nat)     // the retired event is cleared

  datatype State = State(
    runtime: Option<nat>, owners: int, retiring: Option<nat>, retired: bool, lock: Lock,
    built: nat, threads: map<nat, Phase>)

  datatype Step =
    | Acquire
    | BuildSucceeds
    | BuildFailsPartly
    | BuildFailsEmpty
    | Release(handle: Option<nat>)
    | NameRetiring
    | ClearRetired
    | StartThread(started: bool)
    | StopReturns(pipeline: nat, complete: bool)
    | ThreadClearsRetiring(pipeline: nat)
    | ThreadSetsRetired(pipeline: nat)

  predicate Enabled(s: State, step: Step) {
    match step
    case Acquire => s.lock == Free
    case BuildSucceeds => s.lock == Building
    case BuildFailsPartly => s.lock == Building
    case BuildFailsEmpty => s.lock == Building
    case Release(_) => s.lock == Free
    case NameRetiring => s.lock.Withdrawn?
    case ClearRetired => s.lock.Named?
    case StartThread(_) => s.lock.Fenced?
    case StopReturns(p, _) => p in s.threads && s.threads[p] == Stopping
    case ThreadClearsRetiring(p) => p in s.threads && s.threads[p] == ShutDown
    case ThreadSetsRetired(p) => p in s.threads && s.threads[p] == Cleared
  }

  function Taken(s: State, step: Step): State
    requires Enabled(s, step)
  {
    match step
    case Acquire =>
      if !s.retired then s
      else if s.runtime.None? then s.(lock := Building)
      else s.(owners := s.owners + 1)
    case BuildSucceeds => s.(runtime := Some(s.built), built := s.built + 1, owners := s.owners + 1, lock := Free)
    case BuildFailsPartly => s.(built := s.built + 1, lock := Withdrawn(s.built))
    case BuildFailsEmpty => s.(lock := Free)
    case Release(handle) =>
      if handle.None? || handle != s.runtime then s
      else if s.owners - 1 != 0 then s.(owners := s.owners - 1)
      else s.(owners := 0, runtime := None, lock := Withdrawn(handle.value))
    case NameRetiring => s.(retiring := Some(s.lock.pipeline), lock := Named(s.lock.pipeline))
    case ClearRetired => s.(retired := false, lock := Fenced(s.lock.pipeline))
    case StartThread(started) => s.(threads := s.threads[s.lock.pipeline := if started then Stopping else Unstarted], lock := Free)
    case StopReturns(p, complete) => s.(threads := s.threads[p := if complete then ShutDown else Broken])
    case ThreadClearsRetiring(p) => s.(retiring := None, threads := s.threads[p := Cleared])
    case ThreadSetsRetired(p) => s.(retired := true, threads := s.threads[p := Finished])
  }

  /** What the call handed to its caller. */
  function Handed(s: State, step: Step): Option<nat>
    requires Enabled(s, step)
  {
    match step
    case Acquire => if s.retired then s.runtime else None
    case BuildSucceeds => Some(s.built)
    case _ => None
  }

  predicate Init(s: State) {
    s == State(None, 0, None, true, Free, 0, map[])
  }

  /** A pipeline that exists and has not been fully shut down. */
  predicate Alive(s: State, p: nat) {
    || s.runtime == Some(p)
    || ((s.lock.Withdrawn? || s.lock.Named? || s.lock.Fenced?) && s.lock.pipeline == p)
    || (p in s.threads && (s.threads[p] == Unstarted || s.threads[p] == Stopping || s.threads[p] == Broken))
  }

  predicate InRetirement(s: State) {
    s.lock.Withdrawn? || s.lock.Named? || s.lock.Fenced?
  }

  /** The retirement in progress, if any, belongs to exactly one pipeline. */
  ghost predicate Inv(s: State) {
    && s.owners >= 0 && (s.runtime.Some? <==> s.owners > 0)
    && (s.runtime.Some? ==> s.retired && s.lock == Free && s.runtime.value < s.built && s.runtime.value !in s.threads)
    && (s.lock == Building ==> s.retired)
    && (s.lock.Withdrawn? || s.lock.Named? ==> s.retired)
    && (s.lock.Fenced? ==> !s.retired)
    && (s.lock.Named? || s.lock.Fenced? ==> s.retiring == Some(s.lock.pipeline))
    && (InRetirement(s) ==> s.lock.pipeline < s.built && s.lock.pipeline !in s.threads)
    && (s.retired || InRetirement(s) ==> forall p :: p in s.threads ==> s.threads[p] == Finished)
    && (!s.retired && !InRetirement(s) ==> exists p :: Fencing(s, p))
    && (forall p :: p in s.threads ==> p < s.built)
  }

  /** While the fence is up one retired pipeline is unfinished and all others are done. */
  ghost predicate Fencing(s: State, p: nat) {
    && s.lock == Free && p in s.threads && s.threads[p] != Finished
    && (forall q :: q in s.threads && q != p ==> s.threads[q] == Finished)
    && (s.retiring == if s.threads[p] == Cleared then None else Some(p))
  }

  lemma ThreadInv(s: State, step: Step)
    requires Inv(s) && Enabled(s, step) && (step.StopReturns? || step.ThreadClearsRetiring? || step.ThreadSetsRetired?)
    ensures Inv(Taken(s, step))
  {
    var p := step.pipeline;
    assert p in s.threads && s.threads[p] != Finished;
    var q :| Fencing(s, q);
    assert q == p;
    var s' := Taken(s, step);
    if !step.ThreadSetsRetired? {
      assert Fencing(s', p);
    }
  }

  lemma StepInv(s: State, step: Step)
    requires Inv(s) && Enabled(s, step)
    ensures Inv(Taken(s, step))
  {
    match step
    case StopReturns(_, _) => ThreadInv(s, step);
    case ThreadClearsRetiring(_) => ThreadInv(s, step);
    case ThreadSetsRetired(_) => ThreadInv(s, step);
    case StartThread(_) =>
      assert Fencing(Taken(s, step), s.lock.pipeline);
    case Release(_) =>
      if !s.retired { var p :| Fencing(s, p); assert Fencing(Taken(s, step), p); }
    case Acquire =>
      if !s.retired { var p :| Fencing(s, p); assert Fencing(Taken(s, step), p); }
    case _ =>
  }

  // ---------------------------------------------------------------------------
  // Over every interleaving

  ghost predicate Behaviour(states: seq<State>, steps: seq<Step>) {
    && |states| == |steps| + 1 && Init(states[0])
    && forall i :: 0 <= i < |steps| ==> Enabled(states[i], steps[i]) && states[i + 1] == Taken(states[i], steps[i])
  }

  lemma {:induction false} BehaviourInv(states: seq<State>, steps: seq<Step>, i: nat)
    requires Behaviour(states, steps) && i < |states|
    ensures Inv(states[i])
  {
    if i > 0 {
      BehaviourInv(states, steps, i - 1);
      assert Enabled(states[i - 1], steps[i - 1]) && states[i] == Taken(states[i - 1], steps[i - 1]);
      StepInv(states[i - 1], steps[i - 1]);
    }
  }

  /** A pipeline is kept exactly while it has owners, and no two pipelines ever exist unshut at once. */
  lemma OnePipelineAtMost(states: seq<State>, steps: seq<Step>, i: nat, p: nat, q: nat)
    requires Behaviour(states, steps) && i < |states|
    ensures states[i].owners >= 0 && (states[i].runtime.Some? <==> states[i].owners > 0)
    ensures Alive(states[i], p) && Alive(states[i], q) ==> p == q
  {
    var s := states[i];
    BehaviourInv(states, steps, i);
    if !s.retired && !InRetirement(s) {
      var f :| Fencing(s, f);
    }
  }

  /** Nothing is built while any earlier pipeline has not been fully shut down. */
  lemma NeverBuiltBesideAnother(states: seq<State>, steps: seq<Step>, i: nat, p: nat)
    requires Behaviour(states, steps) && i < |steps| && states[i].lock == Building
    ensures !Alive(states[i], p) && states[i].retired
  {
    BehaviourInv(states, steps, i);
  }

  predicate Dead(s: State, p: nat) {
    p in s.threads && (s.threads[p] == Broken || s.threads[p] == Unstarted)
  }

  /** A shutdown that failed, or never started, fences the lifecycle for good: every later acquire hands out nothing. */
  lemma {:induction false} FailedShutdownBlocksForever(states: seq<State>, steps: seq<Step>, i: nat, j: nat, p: nat)
    requires Behaviour(states, steps) && i <= j < |states| && Dead(states[i], p)
    ensures Dead(states[j], p) && !states[j].retired && states[j].runtime.None? && states[j].built == states[i].built
    ensures states[j].lock == Free && Taken(states[j], Acquire) == states[j] && Handed(states[j], Acquire).None?
  {
    BehaviourInv(states, steps, i);
    BehaviourInv(states, steps, j);
    if i < j {
      FailedShutdownBlocksForever(states, steps, i, j - 1, p);
      BehaviourInv(states, steps, j - 1);
      var f :| Fencing(states[j - 1], f);
      assert f == p;
      assert Enabled(states[j - 1], steps[j - 1]) && states[j] == Taken(states[j - 1], steps[j - 1]);
    } else {
      assert !states[i].retired;
      assert !InRetirement(states[i]);
      var f :| Fencing(states[i], f);
    }
  }

  /** The fence is down exactly when every retired pipeline's thread has finished, so a later acquire can build again. */
  lemma FenceFallsWhenAllFinish(states: seq<State>, steps: seq<Step>, i: nat)
    requires Behaviour(states, steps) && i < |states| && states[i].lock == Free
    ensures states[i].retired <==> forall p :: p in states[i].threads ==> states[i].threads[p] == Finished
  {
    BehaviourInv(states, steps, i);
    if !states[i].retired {
      var f :| Fencing(states[i], f);
    }
  }

  /** A shutdown that reports failure, or a thread that cannot be started, lets no later acquire have anything. */
  lemma FailedReturnBlocks(states: seq<State>, steps: seq<Step>, i: nat, j: nat, p: nat)
    requires Behaviour(states, steps) && i < j < |states|
    requires steps[i] == StopReturns(p, false) || (steps[i] == StartThread(false) && states[i].lock == Fenced(p))
    ensures !states[j].retired && states[j].lock == Free && states[j].built == states[i].built
    ensures Handed(states[j], Acquire).None? && Taken(states[j], Acquire) == states[j]
  {
    assert Enabled(states[i], steps[i]) && states[i + 1] == Taken(states[i], steps[i]);
    FailedShutdownBlocksForever(states, steps, i + 1, j, p);
  }

  predicate Returned(s: State, p: nat) {
    p in s.threads && (s.threads[p] == ShutDown || s.threads[p] == Cleared || s.threads[p] == Finished)
  }

  lemma {:induction false} ReturnedStays(states: seq<State>, steps: seq<Step>, i: nat, j: nat, p: nat)
    requires Behaviour(states, steps) && i <= j < |states| && Returned(states[i], p)
    ensures Returned(states[j], p)
    decreases j
  {
    hide Inv, Taken, Enabled, Returned;
    if i < j {
      ReturnedStays(states, steps, i, j - 1, p);
      BehaviourInv(states, steps, j - 1);
      ReturnedStep(states[j - 1], steps[j - 1], p);
    }
  }

  lemma ReturnedStep(s: State, step: Step, p: nat)
    requires Inv(s) && Enabled(s, step) && Returned(s, p)
    ensures Returned(Taken(s, step), p)
  {
    hide Fencing;
  }

  /** What the thread has left to do after a shutdown that succeeded. */
  function ThreadRest(s: State, p: nat): State
    requires Returned(s, p)
  {
    if s.threads[p] == ShutDown then Taken(Taken(s, ThreadClearsRetiring(p)), ThreadSetsRetired(p))
    else if s.threads[p] == Cleared then Taken(s, ThreadSetsRetired(p))
    else s
  }

  /**
   A shutdown that reports success always lets telemetry come back: at any later time the thread can make its
   remaining writes, and if nothing else is retired the next acquire then builds a new pipeline.
   */
  lemma SuccessfulReturnReopens(states: seq<State>, steps: seq<Step>, i: nat, j: nat, p: nat)
    requires Behaviour(states, steps) && i < j < |states| && steps[i] == StopReturns(p, true)
    ensures Returned(states[j], p)
    ensures states[j].threads[p] != Finished ==>
              && ThreadRest(states[j], p).retired && ThreadRest(states[j], p).retiring.None?
              && ThreadRest(states[j], p).lock == Free && ThreadRest(states[j], p).runtime.None?
              && Taken(ThreadRest(states[j], p), Acquire).lock == Building
              && Handed(Taken(ThreadRest(states[j], p), Acquire), BuildSucceeds) == Some(states[j].built)
  {
    assert Enabled(states[i], steps[i]) && states[i + 1] == Taken(states[i], steps[i]);
    ReturnedStays(states, steps, i + 1, j, p);
    BehaviourInv(states, steps, j);
    if states[j].threads[p] != Finished {
      var q :| Fencing(states[j], q);
    }
  }

  /** Where every pipeline that was ever constructed, wholly or in part, is to be found. */
  predicate Accounted(s: State, p: nat) {
    || s.runtime == Some(p)
    || (InRetirement(s) && s.lock.pipeline == p)
    || p in s.threads
  }

  /** No pipeline is lost: each one built is running, being retired, or has had its shutdown thread. */
  lemma {:induction false} NoPipelineIsLost(states: seq<State>, steps: seq<Step>, i: nat, p: nat)
    requires Behaviour(states, steps) && i < |states| && p < states[i].built
    ensures Accounted(states[i], p)
  {
    if i > 0 {
      BehaviourInv(states, steps, i - 1);
      assert Enabled(states[i - 1], steps[i - 1]) && states[i] == Taken(states[i - 1], steps[i - 1]);
      if p < states[i - 1].built { NoPipelineIsLost(states, steps, i - 1, p); }
    }
  }

  predicate ByThread(step: Step) {
    step.StopReturns? || step.ThreadClearsRetiring? || step.ThreadSetsRetired?
  }

  /**
   A release touches nothing the thread touches, so the two commute. An acquire reads `retired` first: if it
   is set no thread has anything left to do, and if not the acquire touches nothing else.
   */
  lemma MergedAccessesCommute(s: State, handle: Option<nat>, step: Step)
    requires Inv(s) && ByThread(step)
    ensures s.lock == Free && Enabled(s, step) ==>
              && Enabled(Taken(s, Release(handle)), step) && Enabled(Taken(s, step), Release(handle))
              && Taken(Taken(s, Release(handle)), step) == Taken(Taken(s, step), Release(handle))
    ensures s.retired ==> !Enabled(s, step)
    ensures s.lock == Free && !s.retired ==> Taken(s, Acquire) == s
  {
  }

  // ---------------------------------------------------------------------------
  // Owners. The lifecycle does not know them: it counts, and trusts each release it is given.

  /** Which owner holds which pipeline; an owner stands for one acquire. `who` is the owner whose call takes the step. */
  type Held = map<nat, nat>

  function HeldAfter(s: State, step: Step, who: nat, held: Held): Held
    requires Enabled(s, step)
  {
    if Handed(s, step).Some? then held[who := Handed(s, step).value]
    else if step.Release? && who in held && step.handle == Some(held[who]) then held - {who}
    else held
  }

  ghost predicate OwnedBehaviour(states: seq<State>, steps: seq<Step>, who: seq<nat>, held: seq<Held>) {
    && Behaviour(states, steps) && |who| == |steps| && |held| == |states| && held[0] == map[]
    && (forall i :: 0 <= i < |steps| ==> held[i + 1] == HeldAfter(states[i], steps[i], who[i], held[i]))
    && (forall i :: 0 <= i < |steps| && Handed(states[i], steps[i]).Some? ==> who[i] !in held[i])
  }

  /** A release that names the running pipeline comes from an owner that still holds it. */
  predicate Rightful(s: State, step: Step, who: nat, held: Held) {
    step.Release? && step.handle.Some? && step.handle == s.runtime ==> who in held && held[who] == step.handle.value
  }

  /** Whoever holds a pipeline holds the running one, and the count is the number of holders. */
  ghost predicate Served(s: State, held: Held) {
    s.owners == |held| && forall o :: o in held ==> s.runtime == Some(held[o])
  }

  lemma Without(held: Held, o: nat)
    requires o in held
    ensures |held - {o}| == |held| - 1
  {
    assert (held - {o}).Keys == held.Keys - {o};
  }

  lemma ServedStep(s: State, step: Step, who: nat, held: Held)
    requires Inv(s) && Enabled(s, step) && Served(s, held) && (Handed(s, step).Some? ==> who !in held)
    ensures Served(Taken(s, step), HeldAfter(s, step, who, held)) <==> Rightful(s, step, who, held)
  {
    var s', held' := Taken(s, step), HeldAfter(s, step, who, held);
    if Handed(s, step).Some? {
      assert held'.Keys == held.Keys + {who};
      assert |held'| == |held| + 1;
      NobodyHolds(s, held);
    } else if step.Release? && who in held && step.handle == Some(held[who]) {
      Without(held, who);
      if s.owners == 1 {
        assert held' == map[];
      }
    }
  }

  /** Without a running pipeline nobody holds one. */
  lemma NobodyHolds(s: State, held: Held)
    requires Inv(s) && Served(s, held)
    ensures s.runtime.None? ==> held == map[]
  {
    assert s.runtime.None? ==> |held| == 0;
  }

  ghost predicate AllServed(states: seq<State>, held: seq<Held>) {
    |states| == |held| && forall i :: 0 <= i < |states| ==> Served(states[i], held[i])
  }

  ghost predicate AllRightful(states: seq<State>, steps: seq<Step>, who: seq<nat>, held: seq<Held>) {
    |steps| <= |states| && |steps| <= |who| && |steps| <= |held| && forall i :: 0 <= i < |steps| ==> Rightful(states[i], steps[i], who[i], held[i])
  }

  lemma {:induction false} RightfulServes(states: seq<State>, steps: seq<Step>, who: seq<nat>, held: seq<Held>, i: nat)
    requires OwnedBehaviour(states, steps, who, held) && i < |states|
    requires forall k :: 0 <= k < i ==> Rightful(states[k], steps[k], who[k], held[k])
    ensures Served(states[i], held[i])
  {
    hide Taken, Handed, HeldAfter, Inv, Rightful;
    if i > 0 {
      RightfulServes(states, steps, who, held, i - 1);
      BehaviourInv(states, steps, i - 1);
      ServedStep(states[i - 1], steps[i - 1], who[i - 1], held[i - 1]);
    }
  }

  /**
   In every state every holder has the running pipeline and the count is the number of holders, if and only
   if each release that names the running pipeline came from an owner that still held it.
   */
  lemma HoldersAreServedIff(states: seq<State>, steps: seq<Step>, who: seq<nat>, held: seq<Held>)
    requires OwnedBehaviour(states, steps, who, held)
    ensures AllServed(states, held) <==> AllRightful(states, steps, who, held)
  {
    hide Taken, Handed, HeldAfter, Inv, Rightful, Served;
    if AllServed(states, held) {
      forall i | 0 <= i < |steps|
        ensures Rightful(states[i], steps[i], who[i], held[i])
      {
        BehaviourInv(states, steps, i);
        assert Served(states[i], held[i]) && Served(states[i + 1], held[i + 1]);
        ServedStep(states[i], steps[i], who[i], held[i]);
      }
    }
    if AllRightful(states, steps, who, held) {
      forall i | 0 <= i < |states|
        ensures Served(states[i], held[i])
      {
        RightfulServes(states, steps, who, held, i);
      }
    }
  }

  /** With rightful releases only, a pipeline that anybody holds is running and has not been retired. */
  lemma HeldPipelineIsNotRetired(states: seq<State>, steps: seq<Step>, who: seq<nat>, held: seq<Held>, i: nat, o: nat)
    requires OwnedBehaviour(states, steps, who, held) && AllRightful(states, steps, who, held) && i < |states| && o in held[i]
    ensures states[i].runtime == Some(held[i][o]) && held[i][o] !in states[i].threads && Alive(states[i], held[i][o])
  {
    RightfulServes(states, steps, who, held, i);
    BehaviourInv(states, steps, i);
  }

  /** Owner 0 releases twice: the pipeline is retired while owner 1 holds it, and that release was not rightful. */
  lemma DoubleReleaseRetiresSharedPipeline() returns (states: seq<State>, steps: seq<Step>, who: seq<nat>, held: seq<Held>)
    ensures steps == [Acquire, BuildSucceeds, Acquire, Release(Some(0)), Release(Some(0))] && who == [0, 0, 1, 0, 0]
    ensures OwnedBehaviour(states, steps, who, held)
    ensures held[5] == map[1 := 0] && states[5].runtime.None? && states[5].lock == Withdrawn(0)
    ensures !Rightful(states[4], steps[4], who[4], held[4])
  {
    steps, who := [Acquire, BuildSucceeds, Acquire, Release(Some(0)), Release(Some(0))], [0, 0, 1, 0, 0];
    var s0 := State(None, 0, None, true, Free, 0, map[]);
    var s1 := Taken(s0, Acquire);
    var s2 := Taken(s1, BuildSucceeds);
    var s3 := Taken(s2, Acquire);
    var s4 := Taken(s3, Release(Some(0)));
    var s5 := Taken(s4, Release(Some(0)));
    states := [s0, s1, s2, s3, s4, s5];
    var h3: Held := map[0 := 0, 1 := 0];
    held := [map[], map[], map[0 := 0], h3, map[1 := 0], map[1 := 0]];
    assert h3 - {0} == map[1 := 0];
  }

  // ---------------------------------------------------------------------------
  // The lifecycle object: each call is a run of the steps above

  datatype Construction = Succeeds | FailsPartly | FailsEmpty

  function Retired(s: State, started: bool): State
    requires s.lock.Withdrawn?
  {
    Taken(Taken(Taken(s, NameRetiring), ClearRetired), StartThread(started))
  }

  function AcquireCall(s: State, construction: Construction, started: bool): State
    requires s.lock == Free
  {
    var s1 := Taken(s, Acquire);
    if s1.lock != Building then s1 else
      match construction
      case Succeeds => Taken(s1, BuildSucceeds)
      case FailsPartly => Retired(Taken(s1, BuildFailsPartly), started)
      case FailsEmpty => Taken(s1, BuildFailsEmpty)
  }

  function ReleaseCall(s: State, handle: Option<nat>, started: bool): State
    requires s.lock == Free
  {
    var s1 := Taken(s, Release(handle));
    if s1.lock.Withdrawn? then Retired(s1, started) else s1
  }

  class Lifecycle {
    var runtime: Option<nat>
    var owners: int
    var retiring: Option<nat>
    var retired: bool
    var built: nat
    var threads: map<nat, Phase>

    ghost function Value(): State reads this {
      State(runtime, owners, retiring, retired, Free, built, threads)
    }

    constructor ()
      ensures Init(Value())
    {
      runtime, owners, retiring, retired, built, threads := None, 0, None, true, 0, map[];
    }

    method AcquireRuntime(monitoringEnabled: bool, construction: Construction, started: bool) returns (handle: Option<nat>)
      modifies this
      ensures Value() == if monitoringEnabled then AcquireCall(old(Value()), construction, started) else old(Value())
      ensures handle == if monitoringEnabled && old(retired) then runtime else None
    {
      if !monitoringEnabled {
        return None;
      }
      if !retired {
        return None;
      }
      if runtime.None? {
        match construction
        case Succeeds =>
          runtime := Some(built);
          built := built + 1;
        case FailsPartly =>
          built := built + 1;
          Retire(built - 1, started);
          return None;
        case FailsEmpty =>
          return None;
      }
      owners := owners + 1;
      return runtime;
    }

    /** True when the caller has nothing to wait for: this call did not retire the pipeline. */
    method ReleaseRuntime(handle: Option<nat>, started: bool) returns (complete: bool)
      modifies this
      ensures Value() == ReleaseCall(old(Value()), handle, started)
      ensures complete <==> !(handle.Some? && handle == old(runtime) && old(owners) == 1)
    {
      if handle.None? || handle != runtime {
        return true;
      }
      owners := owners - 1;
      if owners != 0 {
        return true;
      }
      runtime := None;
      Retire(handle.value, started);
      return false;
    }

    method Retire(pipeline: nat, started: bool)
      modifies this
      ensures retiring == Some(pipeline) && !retired
      ensures threads == old(threads)[pipeline := if started then Stopping else Unstarted]
      ensures runtime == old(runtime) && owners == old(owners) && built == old(built)
    {
      retiring := Some(pipeline);
      retired := false;
      threads := threads[pipeline := if started then Stopping else Unstarted];
    }
  }
}
