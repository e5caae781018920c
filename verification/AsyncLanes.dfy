/**
 Bounded lanes and the serial gate in front of the prompt executor.

 A lane call takes a permit, submits its function to a worker thread and waits behind a shield; if
 its caller is cancelled, releasing the permit passes to a callback that runs once the thread has
 settled.  A gated call does the same one level up: it holds a lock around an owned task that is itself
 a lane call.  Once the gate is bypassed the call is an ordinary lane call.  Any number of calls are
 interleaved, one await at a time, with cancellation at every await.  A call's gate and lane share its
 number; `innerCancelled` records that an owned task was itself cancelled while its thread was working.
 */
module AsyncLanes {
  import opened Options
  import opened Runs
  import opened Sets

  datatype Thread = NotSubmitted | Working | Settled

  /** A lane call: waiting for a permit, holding one, awaiting the shielded future, or unwound with the
      release left to the future's callback. */
  datatype LanePc = Waiting | Acquired | Awaiting | Abandoned | Finished

  datatype Lane = Lane(pc: LanePc, thread: Thread, acquired: nat, released: nat)

  datatype GatePc = GateWaiting | Deciding | Bypassed | Shielded | GateAbandoned | GateFinished

  datatype State = State(
    workers: nat,
    free: int,
    lanes: map<nat, Lane>,
    gate: Option<nat>,
    gated: map<nat, GatePc>,
    innerCancelled: bool)

  const NewLane := Lane(Waiting, NotSubmitted, 0, 0)

  function Init(workers: nat): State {
    State(workers, workers, map[], None, map[], false)
  }

  datatype Step =
    // _run_bounded_work
    | StartLane(i: nat) | Acquire(i: nat) | CancelWaiting(i: nat) | Submit(i: nat) | SubmitRaises(i: nat)
    | Settle(i: nat) | Return(i: nat) | Cancel(i: nat) | LaneCallback(i: nat)
    // run_serialized_prompt_work
    | StartGated(i: nat) | AcquireGate(i: nat) | CancelGateWaiting(i: nat) | Bypass(i: nat) | CheckRaises(i: nat)
    | CreateTask(i: nat) | GateReturn(i: nat) | GateCancel(i: nat) | GateCallback(i: nat)

  predicate LaneAt(s: State, i: nat, pc: LanePc) {
    i in s.lanes && s.lanes[i].pc == pc
  }

  predicate GateAt(s: State, i: nat, pc: GatePc) {
    i in s.gated && s.gated[i] == pc
  }

  /** The lane's coroutine has returned or raised. */
  predicate TaskDone(s: State, i: nat) {
    LaneAt(s, i, Abandoned) || LaneAt(s, i, Finished)
  }

  /** The lane runs in a task owned by a gated call rather than in its caller. */
  predicate IsInner(s: State, i: nat) {
    i in s.gated && s.gated[i] != Bypassed
  }

  predicate Enabled(s: State, step: Step) {
    match step
    case StartLane(i) => i !in s.lanes && i !in s.gated
    case Acquire(i) => LaneAt(s, i, Waiting) && s.free > 0
    case CancelWaiting(i) => LaneAt(s, i, Waiting)
    case Submit(i) => LaneAt(s, i, Acquired)
    case SubmitRaises(i) => LaneAt(s, i, Acquired)
    case Settle(i) => i in s.lanes && s.lanes[i].thread == Working
    case Return(i) => LaneAt(s, i, Awaiting) && s.lanes[i].thread == Settled
    case Cancel(i) => LaneAt(s, i, Awaiting)
    case LaneCallback(i) => LaneAt(s, i, Abandoned) && s.lanes[i].thread == Settled
    case StartGated(i) => i !in s.lanes && i !in s.gated
    case AcquireGate(i) => GateAt(s, i, GateWaiting) && s.gate == None
    case CancelGateWaiting(i) => GateAt(s, i, GateWaiting)
    case Bypass(i) => GateAt(s, i, Deciding) && i !in s.lanes
    case CheckRaises(i) => GateAt(s, i, Deciding)
    case CreateTask(i) => GateAt(s, i, Deciding) && i !in s.lanes
    case GateReturn(i) => GateAt(s, i, Shielded) && TaskDone(s, i)
    case GateCancel(i) => GateAt(s, i, Shielded)
    case GateCallback(i) => GateAt(s, i, GateAbandoned) && TaskDone(s, i)
  }

  function SetLane(s: State, i: nat, lane: Lane): State {
    s.(lanes := s.lanes[i := lane])
  }

  function Release(s: State, i: nat): State
    requires i in s.lanes
  {
    SetLane(s, i, s.lanes[i].(pc := Finished, released := s.lanes[i].released + 1)).(free := s.free + 1)
  }

  function SetGate(s: State, i: nat, pc: GatePc): State {
    s.(gated := s.gated[i := pc])
  }

  function Apply(s: State, step: Step): State
    requires Enabled(s, step)
  {
    match step
    case StartLane(i) => SetLane(s, i, NewLane)
    case Acquire(i) =>
      SetLane(s, i, s.lanes[i].(pc := Acquired, acquired := s.lanes[i].acquired + 1)).(free := s.free - 1)
    case CancelWaiting(i) =>
      SetLane(s, i, s.lanes[i].(pc := Finished))
    case Submit(i) => SetLane(s, i, s.lanes[i].(pc := Awaiting, thread := Working))
    case SubmitRaises(i) => Release(s, i)
    case Settle(i) => SetLane(s, i, s.lanes[i].(thread := Settled))
    case Return(i) => Release(s, i)
    case Cancel(i) =>
      SetLane(s, i, s.lanes[i].(pc := Abandoned)).(
        innerCancelled := s.innerCancelled || (IsInner(s, i) && s.lanes[i].thread == Working))
    case LaneCallback(i) => Release(s, i)
    case StartGated(i) => SetGate(s, i, GateWaiting)
    case AcquireGate(i) => SetGate(s, i, Deciding).(gate := Some(i))
    case CancelGateWaiting(i) => SetGate(s, i, GateFinished)
    case Bypass(i) => SetLane(SetGate(s, i, Bypassed), i, NewLane).(gate := None)
    case CheckRaises(i) => SetGate(s, i, GateFinished).(gate := None)
    case CreateTask(i) => SetLane(SetGate(s, i, Shielded), i, NewLane)
    case GateReturn(i) => SetGate(s, i, GateFinished).(gate := None)
    case GateCancel(i) => SetGate(s, i, GateAbandoned)
    case GateCallback(i) => SetGate(s, i, GateFinished).(gate := None)
  }

  predicate Next(s: State, step: Step, t: State) {
    Enabled(s, step) && t == Apply(s, step)
  }

  ghost predicate IsRun(path: seq<State>, steps: seq<Step>) {
    RunOf(Next, path, steps)
  }

  // ----- permits

  predicate Holds(lane: Lane) {
    lane.pc == Acquired || lane.pc == Awaiting || lane.pc == Abandoned
  }

  function Holders(lanes: map<nat, Lane>): set<nat> {
    set i | i in lanes && Holds(lanes[i])
  }

  function WorkingThreads(lanes: map<nat, Lane>): set<nat> {
    set i | i in lanes && lanes[i].thread == Working
  }

  /** One call: it takes at most one permit, gives it back exactly once, never while its thread works. */
  predicate LaneInv(lane: Lane) {
    && lane.acquired <= 1
    && lane.acquired == lane.released + (if Holds(lane) then 1 else 0)
    && (lane.thread == Working ==> lane.pc == Awaiting || lane.pc == Abandoned)
    && (lane.pc == Awaiting || lane.pc == Abandoned ==> lane.thread != NotSubmitted)
    && (lane.pc == Waiting ==> lane.acquired == 0)
  }

  ghost predicate PermitInv(s: State) {
    && s.free + |Holders(s.lanes)| == s.workers && s.free >= 0
    && forall i :: i in s.lanes ==> LaneInv(s.lanes[i])
  }

  lemma HoldersUpdate(lanes: map<nat, Lane>, i: nat, lane: Lane)
    ensures Holders(lanes[i := lane]) == if Holds(lane) then Holders(lanes) + {i} else Holders(lanes) - {i}
    ensures i in lanes && Holds(lanes[i]) ==> i in Holders(lanes)
    ensures i !in lanes || !Holds(lanes[i]) ==> i !in Holders(lanes)
  {
  }

  function PermitsOf(lanes: map<nat, Lane>, i: nat): nat {
    if i in lanes && Holds(lanes[i]) then 1 else 0
  }

  /** Permits only move between the free pool and the call that steps. */
  lemma LaneKeepsPermits(s: State, i: nat, lane: Lane, t: State)
    requires PermitInv(s) && LaneInv(lane)
    requires t.workers == s.workers && t.lanes == s.lanes[i := lane] && t.free >= 0
    requires t.free + PermitsOf(t.lanes, i) == s.free + PermitsOf(s.lanes, i)
    ensures PermitInv(t)
  {
    HoldersUpdate(s.lanes, i, lane);
  }

  lemma StepKeepsPermits(s: State, step: Step, t: State)
    requires PermitInv(s) && Next(s, step, t)
    ensures PermitInv(t) && t.workers == s.workers
  {
    match step
    case StartLane(i) => LaneKeepsPermits(s, i, NewLane, t);
    case Acquire(i) => LaneKeepsPermits(s, i, t.lanes[i], t);
    case CancelWaiting(i) => LaneKeepsPermits(s, i, t.lanes[i], t);
    case Submit(i) => LaneKeepsPermits(s, i, t.lanes[i], t);
    case SubmitRaises(i) => LaneKeepsPermits(s, i, t.lanes[i], t);
    case Settle(i) => LaneKeepsPermits(s, i, t.lanes[i], t);
    case Return(i) => LaneKeepsPermits(s, i, t.lanes[i], t);
    case Cancel(i) => LaneKeepsPermits(s, i, t.lanes[i], t);
    case LaneCallback(i) => LaneKeepsPermits(s, i, t.lanes[i], t);
    case Bypass(i) => LaneKeepsPermits(s, i, NewLane, t);
    case CreateTask(i) => LaneKeepsPermits(s, i, NewLane, t);
    case _ =>
  }

  // ----- the gate

  predicate HoldsGate(pc: GatePc) {
    pc == Deciding || pc == Shielded || pc == GateAbandoned
  }

  /** The gate is held exactly by the call that is deciding or has an owned task in flight. */
  ghost predicate HolderInv(s: State) {
    && (s.gate.Some? ==> s.gate.value in s.gated)
    && (forall g :: g in s.gated ==> (HoldsGate(s.gated[g]) <==> s.gate == Some(g)))
    && (forall g :: g in s.gated && (s.gated[g] == GateWaiting || s.gated[g] == Deciding) ==> g !in s.lanes)
    && (forall g :: g in s.gated && (s.gated[g] == Shielded || s.gated[g] == GateAbandoned) ==> g in s.lanes)
  }

  predicate IsDone(lane: Lane) {
    lane.pc == Abandoned || lane.pc == Finished
  }

  /** An owned task that is done has a settled thread, and its gate was not released before. */
  predicate InnerOk(pc: GatePc, lane: Lane) {
    pc != Bypassed ==>
      && (IsDone(lane) ==> lane.thread != Working)
      && (pc == GateFinished ==> IsDone(lane))
  }

  ghost predicate InnerInv(s: State) {
    !s.innerCancelled ==> forall g :: g in s.gated && g in s.lanes ==> InnerOk(s.gated[g], s.lanes[g])
  }

  ghost predicate GateInv(s: State) {
    HolderInv(s) && InnerInv(s)
  }

  /** Only the call that steps changes its position at the gate, and it takes or frees the gate itself. */
  lemma HolderUpdate(s: State, i: nat, pc: GatePc, t: State)
    requires HolderInv(s) && t.gated == s.gated[i := pc] && s.lanes.Keys - {i} == t.lanes.Keys - {i}
    requires t.gate == (if HoldsGate(pc) then Some(i) else if s.gate == Some(i) then None else s.gate)
    requires HoldsGate(pc) ==> s.gate == None || s.gate == Some(i)
    requires pc == GateWaiting || pc == Deciding ==> i !in t.lanes
    requires pc == Shielded || pc == GateAbandoned ==> i in t.lanes
    ensures HolderInv(t)
  {
    assert forall g :: g != i ==> (g in t.lanes.Keys <==> g in s.lanes.Keys - {i});
  }

  lemma StepKeepsHolder(s: State, step: Step, t: State)
    requires HolderInv(s) && Next(s, step, t)
    ensures HolderInv(t)
  {
    match step
    case StartGated(i) => HolderUpdate(s, i, GateWaiting, t);
    case AcquireGate(i) => HolderUpdate(s, i, Deciding, t);
    case CancelGateWaiting(i) => HolderUpdate(s, i, GateFinished, t);
    case Bypass(i) => HolderUpdate(s, i, Bypassed, t);
    case CheckRaises(i) => HolderUpdate(s, i, GateFinished, t);
    case CreateTask(i) => HolderUpdate(s, i, Shielded, t);
    case GateReturn(i) => HolderUpdate(s, i, GateFinished, t);
    case GateCancel(i) => HolderUpdate(s, i, GateAbandoned, t);
    case GateCallback(i) => HolderUpdate(s, i, GateFinished, t);
    case _ =>
  }

  ghost predicate InnerAt(s: State, g: nat) {
    !s.innerCancelled && g in s.gated && g in s.lanes ==> InnerOk(s.gated[g], s.lanes[g])
  }

  /** A step only moves its own call, and cancellation is never forgotten. */
  lemma StepFrame(s: State, step: Step, t: State, g: nat)
    requires Next(s, step, t) && g != step.i
    ensures (g in t.lanes <==> g in s.lanes) && (g in s.lanes ==> t.lanes[g] == s.lanes[g])
    ensures (g in t.gated <==> g in s.gated) && (g in s.gated ==> t.gated[g] == s.gated[g])
    ensures s.innerCancelled ==> t.innerCancelled
  {
  }

  lemma OwnStepKeepsInner(s: State, step: Step, t: State)
    requires HolderInv(s) && InnerAt(s, step.i) && Next(s, step, t)
    requires step.i in s.lanes ==> LaneInv(s.lanes[step.i])
    ensures InnerAt(t, step.i)
  {
    match step
    case Acquire(i) =>
    case CancelWaiting(i) =>
    case Submit(i) =>
    case SubmitRaises(i) =>
    case Settle(i) =>
    case Return(i) =>
    case Cancel(i) =>
    case LaneCallback(i) =>
    case GateReturn(i) =>
    case GateCallback(i) =>
    case _ =>
  }

  lemma StepKeepsInner(s: State, step: Step, t: State)
    requires PermitInv(s) && HolderInv(s) && InnerInv(s) && Next(s, step, t)
    ensures InnerInv(t)
  {
    forall g | g in t.gated && g in t.lanes
      ensures InnerAt(t, g)
    {
      assert InnerAt(s, g);
      if g == step.i {
        OwnStepKeepsInner(s, step, t);
      } else {
        StepFrame(s, step, t, g);
      }
    }
  }

  lemma {:induction false} RunKeepsInv(path: seq<State>, steps: seq<Step>, workers: nat, n: nat)
    requires IsRun(path, steps) && path[0] == Init(workers) && n <= |steps|
    ensures PermitInv(path[n]) && GateInv(path[n]) && path[n].workers == workers
  {
    if n > 0 {
      RunKeepsInv(path, steps, workers, n - 1);
      var s, step, t := path[n - 1], steps[n - 1], path[n];
      StepKeepsPermits(s, step, t);
      StepKeepsHolder(s, step, t);
      StepKeepsInner(s, step, t);
    }
  }

  // ----- what every run keeps

  /** Free permits and permits held by unfinished calls always add up to the worker count; every working
      thread is backed by a held permit; every call returns what it took, once, after its thread settled. */
  lemma PermitsAreConserved(path: seq<State>, steps: seq<Step>, workers: nat)
    requires IsRun(path, steps) && path[0] == Init(workers)
    ensures var s := path[|steps|];
            && s.free + |Holders(s.lanes)| == workers
            && 0 <= s.free
            && WorkingThreads(s.lanes) <= Holders(s.lanes) && |WorkingThreads(s.lanes)| <= workers
            && (forall i :: i in s.lanes ==>
                  && s.lanes[i].released <= s.lanes[i].acquired <= 1
                  && (s.lanes[i].released == 1 ==> s.lanes[i].thread != Working)
                  && (s.lanes[i].pc == Finished ==> s.lanes[i].released == s.lanes[i].acquired))
  {
    RunKeepsInv(path, steps, workers, |steps|);
    var s := path[|steps|];
    assert forall i :: i in s.lanes ==> LaneInv(s.lanes[i]);
    SubsetSize(WorkingThreads(s.lanes), Holders(s.lanes));
  }

  /** When every call is through, all permits are free again and the gate is open. */
  lemma EverythingIsReturned(path: seq<State>, steps: seq<Step>, workers: nat)
    requires IsRun(path, steps) && path[0] == Init(workers)
    requires forall i :: i in path[|steps|].lanes ==> path[|steps|].lanes[i].pc == Finished
    requires forall g :: g in path[|steps|].gated ==> !HoldsGate(path[|steps|].gated[g])
    ensures path[|steps|].free == workers && path[|steps|].gate == None
  {
    RunKeepsInv(path, steps, workers, |steps|);
    assert Holders(path[|steps|].lanes) == {};
  }

  /** The function of a call that went through the gate is running. */
  predicate GatedFunctionRuns(s: State, g: nat) {
    g in s.gated && s.gated[g] != Bypassed && g in s.lanes && s.lanes[g].thread == Working
  }

  /** At most one gated function runs at a time, unless an owned task was cancelled directly while its
      thread was working and there are several workers. */
  lemma GateIsExclusive(path: seq<State>, steps: seq<Step>, workers: nat, g: nat, h: nat)
    requires IsRun(path, steps) && path[0] == Init(workers)
    requires !path[|steps|].innerCancelled || workers <= 1
    requires GatedFunctionRuns(path[|steps|], g) && GatedFunctionRuns(path[|steps|], h)
    ensures g == h
  {
    RunKeepsInv(path, steps, workers, |steps|);
    var s := path[|steps|];
    if s.innerCancelled {
      PermitsAreConserved(path, steps, workers);
      assert {g, h} <= WorkingThreads(s.lanes);
      SubsetSize({g, h}, WorkingThreads(s.lanes));
    }
  }

  /** The exclusion of direct cancellation is needed: with two workers, cancelling the owned task of the
      first call opens the gate while its function is still running. */
  lemma CancelledTaskOpensGate(workers: nat) returns (path: seq<State>, steps: seq<Step>)
    requires workers >= 2
    ensures IsRun(path, steps) && path[0] == Init(workers)
    ensures GatedFunctionRuns(path[|steps|], 0) && GatedFunctionRuns(path[|steps|], 1)
  {
    var path0, steps0 := EnterGate(Init(workers), 0);
    var s := path0[|steps0|];
    var s1 := Apply(s, Cancel(0));
    var s2 := Apply(s1, GateReturn(0));
    var path1, steps1 := [s, s1, s2], [Cancel(0), GateReturn(0)];
    var path2, steps2 := EnterGate(s2, 1);
    ConcatRuns(Next, path0, steps0, path1, steps1);
    path, steps := path0 + path1[1..], steps0 + steps1;
    ConcatRuns(Next, path, steps, path2, steps2);
    path, steps := path + path2[1..], steps + steps2;
  }

  lemma EnterGate(s: State, i: nat) returns (path: seq<State>, steps: seq<Step>)
    requires i !in s.lanes && i !in s.gated && s.gate == None && s.free > 0
    ensures IsRun(path, steps) && path[0] == s
    ensures path[|steps|] == s.(gate := Some(i), gated := s.gated[i := Shielded], free := s.free - 1,
                                lanes := s.lanes[i := Lane(Awaiting, Working, 1, 0)])
  {
    var s1 := Apply(s, StartGated(i));
    var s2 := Apply(s1, AcquireGate(i));
    var s3 := Apply(s2, CreateTask(i));
    var s4 := Apply(s3, Acquire(i));
    var s5 := Apply(s4, Submit(i));
    assert s5.gated == s.gated[i := Shielded];
    assert s5.lanes == s.lanes[i := Lane(Awaiting, Working, 1, 0)];
    path := [s, s1, s2, s3, s4, s5];
    steps := [StartGated(i), AcquireGate(i), CreateTask(i), Acquire(i), Submit(i)];
  }

  // ----- nobody is stuck

  /** A step that neither starts nor cancels a call. */
  predicate Advancing(step: Step) {
    && !step.StartLane? && !step.StartGated?
    && !step.CancelWaiting? && !step.Cancel? && !step.CancelGateWaiting? && !step.GateCancel?
  }

  lemma HolderAdvances(s: State, i: nat) returns (step: Step)
    requires i in s.lanes && LaneInv(s.lanes[i]) && Holds(s.lanes[i])
    ensures Enabled(s, step) && Advancing(step)
  {
    if s.lanes[i].thread == Working {
      step := Settle(i);
    } else {
      step := match s.lanes[i].pc
        case Acquired => Submit(i)
        case Awaiting => Return(i)
        case _ => LaneCallback(i);
    }
  }

  /** As long as some call is unfinished, some call can advance: waiting for a permit or for the gate
      never deadlocks, because lanes never wait for the gate. */
  lemma NotStuck(s: State, i: nat) returns (step: Step)
    requires PermitInv(s) && GateInv(s) && s.workers >= 1
    requires (i in s.lanes && s.lanes[i].pc != Finished)
          || (i in s.gated && s.gated[i] != GateFinished && s.gated[i] != Bypassed)
    ensures Enabled(s, step) && Advancing(step)
  {
    if j :| j in s.lanes && Holds(s.lanes[j]) {
      step := HolderAdvances(s, j);
    } else if j :| j in s.lanes && s.lanes[j].pc == Waiting {
      assert Holders(s.lanes) == {};
      step := Acquire(j);
    } else if s.gate == None {
      step := AcquireGate(i);
    } else {
      var g := s.gate.value;
      assert g in s.lanes ==> TaskDone(s, g);
      step := match s.gated[g]
        case Deciding => CreateTask(g)
        case Shielded => GateReturn(g)
        case _ => GateCallback(g);
    }
  }

  // ----- and everybody finishes

  function LaneRank(lane: Lane): nat {
    match lane.pc
    case Waiting => 5
    case Acquired => 4
    case Awaiting => if lane.thread == Settled then 2 else 3
    case Abandoned => if lane.thread == Settled then 1 else 2
    case Finished => 0
  }

  function GateRank(pc: GatePc): nat {
    match pc
    case GateWaiting => 9
    case Deciding => 8
    case Shielded => 2
    case GateAbandoned => 1
    case Bypassed => 0
    case GateFinished => 0
  }

  /** How many steps a call can still take. */
  function CallRank(s: State, i: nat): nat {
    (if i in s.lanes then LaneRank(s.lanes[i]) else 0) + (if i in s.gated then GateRank(s.gated[i]) else 0)
  }

  predicate Starts(step: Step) {
    step.StartLane? || step.StartGated?
  }

  /** Every step of a call, a cancellation too, brings it closer to its end. */
  lemma StepLowersRank(s: State, step: Step, t: State)
    requires PermitInv(s) && HolderInv(s) && Next(s, step, t)
    ensures CallRank(t, step.i) <= if Starts(step) then 9 else CallRank(s, step.i) - 1
    ensures Starts(step) ==> CallRank(s, step.i) == 0
  {
    assert step.i in s.lanes ==> LaneInv(s.lanes[step.i]);
  }

  ghost function SumRanks(s: State, ids: set<nat>): nat {
    if ids == {} then 0
    else
      var i :| i in ids;
      CallRank(s, i) + SumRanks(s, ids - {i})
  }

  lemma {:induction false} SumPick(s: State, ids: set<nat>, i: nat)
    requires i in ids
    ensures SumRanks(s, ids) == CallRank(s, i) + SumRanks(s, ids - {i})
  {
    var j :| j in ids && SumRanks(s, ids) == CallRank(s, j) + SumRanks(s, ids - {j});
    if i != j {
      SumPick(s, ids - {j}, i);
      SumPick(s, ids - {i}, j);
      assert ids - {j} - {i} == ids - {i} - {j};
    }
  }

  lemma {:induction false} SumSame(s: State, t: State, ids: set<nat>)
    requires forall i :: i in ids ==> CallRank(s, i) == CallRank(t, i)
    ensures SumRanks(s, ids) == SumRanks(t, ids)
  {
    if ids != {} {
      var i :| i in ids;
      SumPick(s, ids, i);
      SumPick(t, ids, i);
      SumSame(s, t, ids - {i});
    }
  }

  function Calls(s: State): set<nat> {
    s.lanes.Keys + s.gated.Keys
  }

  /** Only call `i` has changed. */
  lemma SumStep(s: State, t: State, i: nat)
    requires forall g :: g != i ==> CallRank(s, g) == CallRank(t, g) && (g in Calls(s) <==> g in Calls(t))
    requires i in Calls(t)
    ensures SumRanks(t, Calls(t)) == SumRanks(s, Calls(s)) - (if i in Calls(s) then CallRank(s, i)
                                                              else 0) + CallRank(t, i)
  {
    var others := Calls(s) - {i};
    assert Calls(t) - {i} == others;
    SumSame(s, t, others);
    SumPick(t, Calls(t), i);
    if i in Calls(s) {
      SumPick(s, Calls(s), i);
    } else {
      assert Calls(s) == others;
    }
  }

  lemma StepLowersSum(s: State, step: Step, t: State)
    requires PermitInv(s) && HolderInv(s) && Next(s, step, t)
    ensures SumRanks(t, Calls(t)) + 1 <= SumRanks(s, Calls(s)) + if Starts(step) then 10 else 0
  {
    forall g | g != step.i
      ensures CallRank(s, g) == CallRank(t, g) && (g in Calls(s) <==> g in Calls(t))
    {
      StepFrame(s, step, t, g);
    }
    StepLowersRank(s, step, t);
    SumStep(s, t, step.i);
  }

  function Started(steps: seq<Step>, n: nat): nat
    requires n <= |steps|
  {
    if n == 0 then 0 else Started(steps, n - 1) + if Starts(steps[n - 1]) then 1 else 0
  }

  /** Every call takes at most ten steps, its start among them, so a run in which calls stop arriving ends;
      by `NotStuck` it ends only when every call has finished. */
  lemma {:induction false} RunsAreShort(path: seq<State>, steps: seq<Step>, workers: nat, n: nat)
    requires IsRun(path, steps) && path[0] == Init(workers) && n <= |steps|
    ensures n + SumRanks(path[n], Calls(path[n])) <= 10 * Started(steps, n)
  {
    if n == 0 {
      assert Calls(path[0]) == {};
    } else {
      RunsAreShort(path, steps, workers, n - 1);
      RunKeepsInv(path, steps, workers, n - 1);
      StepLowersSum(path[n - 1], steps[n - 1], path[n]);
    }
  }

  predicate AllThrough(s: State) {
    && (forall i :: i in s.lanes ==> s.lanes[i].pc == Finished)
    && (forall i :: i in s.gated ==> s.gated[i] == GateFinished || s.gated[i] == Bypassed)
  }

  /** A run that no advancing step extends has finished every call, freed every permit and opened the gate. */
  lemma EndedRunIsThrough(path: seq<State>, steps: seq<Step>, workers: nat)
    requires IsRun(path, steps) && path[0] == Init(workers) && workers >= 1
    requires forall step :: Advancing(step) ==> !Enabled(path[|steps|], step)
    ensures AllThrough(path[|steps|]) && path[|steps|].free == workers && path[|steps|].gate == None
  {
    var s := path[|steps|];
    RunKeepsInv(path, steps, workers, |steps|);
    if i :| (i in s.lanes && s.lanes[i].pc != Finished) || (i in s.gated && s.gated[i] != GateFinished
                                                            && s.gated[i] != Bypassed) {
      var step := NotStuck(s, i);
      assert false;
    }
    EverythingIsReturned(path, steps, workers);
  }
}
