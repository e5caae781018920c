/**
 The hand-over of a freshly created container between a helper thread and its caller.

 The helper runs `docker create` to completion; the caller waits for a while, claims the container
 into its lease, or abandons it to the helper.  The caller may be interrupted between any two of its
 statements inside the `try`.  `Apply` performs one atomic step of either thread, so that a run is an
 arbitrary interleaving.  `removals` records every removal by container id, `nameRemovals` counts those by
 container name, and `torn` says that an interrupt landed after the lease was filled and before the claim
 was recorded.
 */
module ContainerLease {
  import opened Options
  import opened Runs

  type Id = string

  /** What `docker create` did: it printed one 64-hex id, it printed something else, it exited with an
      error, or it could not be run.  In the middle two cases the helper removes the container by name. */
  datatype Creation = Valid(id: Id) | Malformed(text: Id) | Failed | NotRun

  function NameRemovals(c: Creation): nat {
    if c.Malformed? || c.Failed? then 1 else 0
  }

  datatype Helper = Creating | Publishing | AwaitingOwnership | Removing | HelperDone

  /** The caller's position: the numbers are those of its statements in order. */
  datatype Caller =
    | Waiting            // in state.finished.wait
    | Locking            // about to enter the locked block
    | Checking           // in the block, before the test
    | LeaseFilled        // lease.container_id was assigned
    | Claimed            // state.claimed was set
    | Signalled          // state.ownership was set, about to return
    | Abandoned          // state.abandoned was set
    | Delegated          // state.ownership was set, about to raise
    | Unwinding          // in the exception handler
    | Using              // returned normally; the with-body runs
    | Cleaning           // in the finally of the with-statement
    | CallerDone

  datatype State = State(
    creation: Creation,
    helper: Helper,
    caller: Caller,
    locked: bool,
    containerId: Option<Id>,
    error: bool,
    finished: bool,
    ownership: bool,
    abandoned: bool,
    claimed: bool,
    lease: Option<Id>,
    removals: multiset<Id>,
    nameRemovals: nat,
    torn: bool)

  function Init(creation: Creation): State {
    State(creation, Creating, Waiting, false, None, false, false, false, false, false, None, multiset{}, 0, false)
  }

  datatype Step =
    | Create | Publish | Decide | HelperRemove
    | Wake | Lock | Check | Claim | Signal | LeaveBlock | Handle | EndBody | Cleanup
    | Interrupt

  predicate IsHelperStep(step: Step) {
    step.Create? || step.Publish? || step.Decide? || step.HelperRemove?
  }

  /** The caller is inside the `try`. */
  predicate Interruptible(c: Caller) {
    (c.Waiting? || c.Locking? || c.Checking? || c.LeaseFilled? || c.Claimed? || c.Signalled? || c.Abandoned?
     || c.Delegated?)
  }

  /** The caller holds the lock. */
  predicate InBlock(c: Caller) {
    (c.Checking? || c.LeaseFilled? || c.Claimed? || c.Signalled? || c.Abandoned? || c.Delegated?)
  }

  predicate Enabled(s: State, step: Step) {
    match step
    case Create => s.helper == Creating
    case Publish => s.helper == Publishing && !s.locked
    case Decide => s.helper == AwaitingOwnership && s.ownership && !s.locked
    case HelperRemove => s.helper == Removing
    case Wake => s.caller == Waiting
    case Lock => s.caller == Locking && !s.locked
    case Check => s.caller == Checking
    case Claim => s.caller == LeaseFilled
    case Signal => s.caller == Claimed || s.caller == Abandoned
    case LeaveBlock => s.caller == Signalled || s.caller == Delegated
    case Handle => s.caller == Unwinding && !s.locked
    case EndBody => s.caller == Using
    case Cleanup => s.caller == Cleaning
    case Interrupt => Interruptible(s.caller)
  }

  function Apply(s: State, step: Step): State
    requires Enabled(s, step)
  {
    match step
    case Create => s.(helper := Publishing, nameRemovals := s.nameRemovals + NameRemovals(s.creation))
    case Publish =>
      var id := PrintedId(s.creation);
      s.(containerId := id, error := !s.creation.Valid?, finished := true,
         helper := if id.None? then HelperDone else AwaitingOwnership)
    case Decide =>
      s.(helper := if s.abandoned && !s.claimed then Removing else HelperDone)
    case HelperRemove =>
      s.(helper := HelperDone, removals := s.removals + multiset{s.containerId.GetOr("")})
    case Wake => s.(caller := Locking)
    case Lock => s.(caller := Checking, locked := true)
    case Check =>
      if s.containerId.Some? && !s.error then s.(caller := LeaseFilled, lease := s.containerId)
      else s.(caller := Abandoned, abandoned := true)
    case Claim => s.(caller := Claimed, claimed := true)
    case Signal => s.(caller := if s.caller == Claimed then Signalled else Delegated, ownership := true)
    case LeaveBlock => s.(caller := if s.caller == Signalled then Using else Unwinding, locked := false)
    case Handle =>
      s.(caller := Cleaning, ownership := true, abandoned := s.abandoned || !s.claimed)
    case EndBody => s.(caller := Cleaning)
    case Cleanup =>
      s.(caller := CallerDone, lease := None,
         removals := if s.lease.Some? then s.removals + multiset{s.lease.value} else s.removals)
    case Interrupt =>
      s.(caller := Unwinding, locked := s.locked && !InBlock(s.caller), torn := s.caller == LeaseFilled)
  }

  predicate Next(s: State, step: Step, t: State) {
    Enabled(s, step) && t == Apply(s, step)
  }

  ghost predicate IsRun(path: seq<State>, steps: seq<Step>) {
    RunOf(Next, path, steps)
  }

  // ----- the invariant

  function PrintedId(c: Creation): Option<Id> {
    match c case Valid(id) => Some(id) case Malformed(text) => Some(text) case _ => None
  }

  predicate Published(s: State) {
    s.helper != Creating && s.helper != Publishing
  }

  predicate BeforeDecision(c: Caller) {
    (c.Waiting? || c.Locking? || c.Checking? || c.LeaseFilled?)
  }

  /** The lease is filled and has not been cleaned up. */
  predicate HoldsLease(s: State) {
    || (s.caller.LeaseFilled? || s.caller.Claimed? || s.caller.Signalled? || s.caller.Using?)
    || ((s.caller.Unwinding? || s.caller.Cleaning?) && (s.claimed || s.torn))
  }

  /** The removals each thread has carried out. */
  function Owed(s: State): multiset<Id> {
    var id := s.containerId.GetOr("");
    (if s.helper == HelperDone && s.containerId.Some? && s.abandoned && !s.claimed then multiset{id} else multiset{}) +
    (if s.caller == CallerDone && (s.claimed || s.torn) then multiset{id} else multiset{})
  }

  /** What the helper has published, and what the lock and the events say. */
  ghost predicate SyncInv(s: State) {
    && s.nameRemovals == (if s.helper == Creating then 0 else NameRemovals(s.creation))
    && s.finished == Published(s)
    && s.containerId == (if Published(s) then PrintedId(s.creation) else None)
    && s.error == (Published(s) && !s.creation.Valid?)
    && (s.helper == AwaitingOwnership || s.helper == Removing ==> s.containerId.Some?)
    && s.locked == InBlock(s.caller)
    && (s.ownership ==> s.claimed || s.abandoned)
    && (s.helper == Removing ==> s.ownership && s.abandoned && !s.claimed)
    && (s.helper == HelperDone && s.containerId.Some? ==> s.ownership)
  }

  /** How the caller's position determines its flags and its lease. */
  ghost predicate CallerInv(s: State) {
    && s.lease == (if HoldsLease(s) then s.containerId else None)
    && (HoldsLease(s) || s.claimed || s.torn ==> Published(s) && s.creation.Valid?)
    && (BeforeDecision(s.caller) ==> !s.claimed && !s.abandoned && !s.torn)
    && (s.caller.Claimed? || s.caller.Signalled? || s.caller.Using? ==> s.claimed)
    && (s.caller.Abandoned? || s.caller.Delegated? ==> s.abandoned)
    && !(s.claimed && s.abandoned)
    && (s.torn ==> !s.claimed && (s.caller.Unwinding? || s.caller.Cleaning? || s.caller.CallerDone?))
    && (s.caller.Signalled? || s.caller.Delegated? || s.caller.Using? || s.caller.Cleaning? || s.caller.CallerDone?
        ==> s.ownership)
  }

  ghost predicate Inv(s: State) {
    SyncInv(s) && CallerInv(s) && s.removals == Owed(s)
  }

  lemma StepKeepsSync(s: State, step: Step)
    requires SyncInv(s) && CallerInv(s) && Enabled(s, step)
    ensures SyncInv(Apply(s, step))
  {
  }

  lemma HelperStepKeepsCaller(s: State, step: Step)
    requires SyncInv(s) && CallerInv(s) && Enabled(s, step) && IsHelperStep(step)
    ensures CallerInv(Apply(s, step))
  {
  }

  lemma CallerStepKeepsCaller(s: State, step: Step)
    requires SyncInv(s) && CallerInv(s) && Enabled(s, step) && !IsHelperStep(step)
    ensures CallerInv(Apply(s, step))
  {
  }

  lemma HelperStepKeepsRemovals(s: State, step: Step)
    requires Inv(s) && Enabled(s, step) && IsHelperStep(step)
    ensures Apply(s, step).removals == Owed(Apply(s, step))
  {
  }

  lemma CallerStepKeepsRemovals(s: State, step: Step)
    requires Inv(s) && Enabled(s, step) && !IsHelperStep(step)
    ensures Apply(s, step).removals == Owed(Apply(s, step))
  {
  }

  /** Every step of either thread keeps the invariant. */
  lemma StepKeepsInv(s: State, step: Step, t: State)
    requires Inv(s) && Next(s, step, t)
    ensures Inv(t) && t.creation == s.creation
  {
    StepKeepsSync(s, step);
    if IsHelperStep(step) {
      HelperStepKeepsCaller(s, step);
      HelperStepKeepsRemovals(s, step);
    } else {
      CallerStepKeepsCaller(s, step);
      CallerStepKeepsRemovals(s, step);
    }
  }

  lemma {:induction false} RunKeepsInv(path: seq<State>, steps: seq<Step>, creation: Creation, n: nat)
    requires IsRun(path, steps) && path[0] == Init(creation) && n <= |steps|
    ensures Inv(path[n]) && path[n].creation == creation
  {
    if n > 0 {
      RunKeepsInv(path, steps, creation, n - 1);
      StepKeepsInv(path[n - 1], steps[n - 1], path[n]);
    }
  }

  // ----- no leak

  predicate Settled(s: State) {
    s.helper == HelperDone && s.caller == CallerDone
  }

  /** The caller was interrupted between filling its lease and recording the claim. */
  predicate TornClaim(path: seq<State>, steps: seq<Step>)
    requires |path| == |steps| + 1
  {
    exists i :: 0 <= i < |steps| && steps[i] == Interrupt && path[i].caller == LeaseFilled
  }

  lemma {:induction false} TornIsTornClaim(path: seq<State>, steps: seq<Step>, creation: Creation, n: nat)
    requires IsRun(path, steps) && path[0] == Init(creation) && n <= |steps|
    ensures path[n].torn <==> exists i :: 0 <= i < n && steps[i] == Interrupt && path[i].caller == LeaseFilled
  {
    if n > 0 {
      TornIsTornClaim(path, steps, creation, n - 1);
      RunKeepsInv(path, steps, creation, n - 1);
      TornStep(path[n - 1], steps[n - 1], path[n]);
    }
  }

  lemma TornStep(s: State, step: Step, t: State)
    requires Inv(s) && Next(s, step, t)
    ensures t.torn <==> s.torn || (step == Interrupt && s.caller == LeaseFilled)
  {
  }

  /** Whatever the interleaving, once both threads are through, a container with a valid id has been
      removed at least once, and exactly once unless the claim was torn, in which case each thread has
      removed it.  What was printed in place of an id is removed once by the helper, and the container's
      name once, as it is after an exit with an error; nothing else is ever removed. */
  lemma NoContainerLeak(path: seq<State>, steps: seq<Step>, creation: Creation)
    requires IsRun(path, steps) && path[0] == Init(creation) && Settled(path[|steps|])
    ensures path[|steps|].removals ==
            match creation
            case Valid(id) => if TornClaim(path, steps) then multiset{id, id} else multiset{id}
            case Malformed(text) => multiset{text}
            case _ => multiset{}
    ensures path[|steps|].nameRemovals == (if creation.Malformed? || creation.Failed? then 1 else 0)
    ensures path[|steps|].lease == None
  {
    RunKeepsInv(path, steps, creation, |steps|);
    TornIsTornClaim(path, steps, creation, |steps|);
  }

  /** While the with-body runs, its lease names the created container and nobody has removed it or is
      about to. */
  lemma BodyOwnsContainer(path: seq<State>, steps: seq<Step>, creation: Creation)
    requires IsRun(path, steps) && path[0] == Init(creation) && path[|steps|].caller == Using
    ensures creation.Valid? && path[|steps|].lease == Some(creation.id)
    ensures path[|steps|].removals == multiset{} && path[|steps|].helper != Removing
  {
    RunKeepsInv(path, steps, creation, |steps|);
  }

  // ----- when the container is handed over

  /** What a run has shown so far. */
  datatype History = History(
    published: bool,     // the helper has published its result
    inTime: bool,        // the caller's check came after that
    interrupted: bool,
    used: bool)          // the with-body ran

  function HistoryOf(path: seq<State>, steps: seq<Step>, n: nat): History
    requires n <= |steps| && |path| == |steps| + 1
  {
    if n == 0 then History(false, false, false, path[0].caller == Using)
    else
      var h, step := HistoryOf(path, steps, n - 1), steps[n - 1];
      History(h.published || step == Publish, h.inTime || (step == Check && h.published),
              h.interrupted || step == Interrupt, h.used || path[n].caller == Using)
  }

  /** The flags mean what they say. */
  lemma {:induction false} HistoryMeaning(path: seq<State>, steps: seq<Step>, n: nat)
    requires n <= |steps| && |path| == |steps| + 1
    ensures var h := HistoryOf(path, steps, n);
            && (h.published <==> Publish in steps[..n]) && (h.interrupted <==> Interrupt in steps[..n])
            && (h.used <==> exists i :: 0 <= i <= n && path[i].caller == Using)
            && (h.inTime <==> exists i, j :: 0 <= i < j < n && steps[i] == Publish && steps[j] == Check)
  {
    if n > 0 {
      HistoryMeaning(path, steps, n - 1);
      assert steps[..n] == steps[..n - 1] + [steps[n - 1]];
      if HistoryOf(path, steps, n - 1).published && steps[n - 1] == Check {
        var i :| 0 <= i < n - 1 && steps[..n - 1][i] == Publish;
        assert steps[i] == Publish;
      }
      if i, j :| 0 <= i < j < n && steps[i] == Publish && steps[j] == Check {
        assert j == n - 1 ==> steps[..n - 1][i] == Publish;
      }
    }
  }

  /** Where the caller is tells what has happened. */
  ghost predicate HistoryInv(s: State, h: History) {
    var handedOver := s.creation.Valid? && h.inTime && !h.interrupted;
    && h.published == Published(s)
    && (h.interrupted ==> s.caller.Unwinding? || s.caller.Cleaning? || s.caller.CallerDone?)
    && (s.caller.Waiting? || s.caller.Locking? || s.caller.Checking? ==> !h.inTime && !h.used)
    && (s.caller.LeaseFilled? || s.caller.Claimed? || s.caller.Signalled? ==> handedOver && !h.used)
    && (s.caller.Abandoned? || s.caller.Delegated? || s.caller.Unwinding? ==> !handedOver && !h.used)
    && (s.caller.Using? ==> handedOver && h.used)
    && (s.caller.Cleaning? || s.caller.CallerDone? ==> (h.used <==> handedOver))
  }

  lemma HistoryStep(s: State, step: Step, t: State, h: History, h': History)
    requires Inv(s) && HistoryInv(s, h) && Next(s, step, t)
    requires h' == History(h.published || step == Publish, h.inTime || (step == Check && h.published),
                           h.interrupted || step == Interrupt, h.used || t.caller == Using)
    ensures HistoryInv(t, h')
  {
    if IsHelperStep(step) {
      HelperHistory(s, step, t, h, h');
    }
  }

  lemma HelperHistory(s: State, step: Step, t: State, h: History, h': History)
    requires Inv(s) && HistoryInv(s, h) && Next(s, step, t) && IsHelperStep(step)
    requires h' == h.(published := h.published || step == Publish, used := h.used || t.caller == Using)
    ensures HistoryInv(t, h')
  {
  }

  lemma {:induction false} RunKeepsHistory(path: seq<State>, steps: seq<Step>, creation: Creation, n: nat)
    requires IsRun(path, steps) && path[0] == Init(creation) && n <= |steps|
    ensures HistoryInv(path[n], HistoryOf(path, steps, n))
  {
    if n > 0 {
      RunKeepsHistory(path, steps, creation, n - 1);
      RunKeepsInv(path, steps, creation, n - 1);
      HistoryStep(path[n - 1], steps[n - 1], path[n], HistoryOf(path, steps, n - 1), HistoryOf(path, steps, n));
    }
  }

  /** The helper published before the caller looked. */
  predicate PublishedInTime(steps: seq<Step>) {
    exists i, j :: 0 <= i < j < |steps| && steps[i] == Publish && steps[j] == Check
  }

  /** In a settled run the with-body runs exactly when a valid container was published before the caller's
      check and nothing interrupted the caller. */
  lemma HandedOverIff(path: seq<State>, steps: seq<Step>, creation: Creation)
    requires IsRun(path, steps) && path[0] == Init(creation) && Settled(path[|steps|])
    ensures (exists i :: 0 <= i < |path| && path[i].caller == Using)
       <==> creation.Valid? && PublishedInTime(steps) && Interrupt !in steps
  {
    RunKeepsInv(path, steps, creation, |steps|);
    RunKeepsHistory(path, steps, creation, |steps|);
    HistoryMeaning(path, steps, |steps|);
    assert steps[..|steps|] == steps;
  }

  /** The caller is about to look, and the container is there. */
  function Ready(id: Id): State {
    Init(Valid(id)).(helper := AwaitingOwnership, caller := Checking, locked := true, containerId := Some(id),
                     finished := true)
  }

  /** The caller uses the container. */
  function InUse(id: Id): State {
    Ready(id).(caller := Using, locked := false, ownership := true, claimed := true, lease := Some(id))
  }

  lemma ReadyRun(id: Id) returns (path: seq<State>, steps: seq<Step>)
    ensures IsRun(path, steps) && path[0] == Init(Valid(id)) && path[|steps|] == Ready(id)
  {
    var s0 := Init(Valid(id));
    var s1 := Apply(s0, Create);
    var s2 := Apply(s1, Publish);
    var s3 := Apply(s2, Wake);
    path, steps := [s0, s1, s2, s3, Apply(s3, Lock)], [Create, Publish, Wake, Lock];
  }

  lemma ClaimRun(id: Id) returns (path: seq<State>, steps: seq<Step>)
    ensures IsRun(path, steps) && path[0] == Ready(id) && path[|steps|] == InUse(id)
  {
    var s0 := Ready(id);
    var s1 := Apply(s0, Check);
    var s2 := Apply(s1, Claim);
    var s3 := Apply(s2, Signal);
    path, steps := [s0, s1, s2, s3, Apply(s3, LeaveBlock)], [Check, Claim, Signal, LeaveBlock];
  }

  lemma EndRun(id: Id) returns (path: seq<State>, steps: seq<Step>)
    ensures IsRun(path, steps) && path[0] == InUse(id) && Settled(path[|steps|])
  {
    var s0 := InUse(id);
    var s1 := Apply(s0, EndBody);
    var s2 := Apply(s1, Cleanup);
    path, steps := [s0, s1, s2, Apply(s2, Decide)], [EndBody, Cleanup, Decide];
  }

  /** Every valid container can be handed over, used and removed. */
  lemma HandoverRun(id: Id) returns (path: seq<State>, steps: seq<Step>, n: nat)
    ensures IsRun(path, steps) && path[0] == Init(Valid(id)) && Settled(path[|steps|])
    ensures n < |path| && path[n].caller == Using && path[n].lease == Some(id)
  {
    var path1, steps1 := ReadyRun(id);
    var path2, steps2 := ClaimRun(id);
    var path3, steps3 := EndRun(id);
    ConcatRuns(Next, path1, steps1, path2, steps2);
    path, steps, n := path1 + path2[1..], steps1 + steps2, |steps1| + |steps2|;
    ConcatRuns(Next, path, steps, path3, steps3);
    path, steps := path + path3[1..], steps + steps3;
  }

  // ----- every run ends

  function HelperLeft(h: Helper): nat {
    match h
    case Creating => 4
    case Publishing => 3
    case AwaitingOwnership => 2
    case Removing => 1
    case HelperDone => 0
  }

  function CallerLeft(c: Caller): nat {
    match c
    case Waiting => 10
    case Locking => 9
    case Checking => 8
    case LeaseFilled => 7
    case Claimed => 6
    case Abandoned => 6
    case Signalled => 5
    case Delegated => 5
    case Unwinding => 3
    case Using => 3
    case Cleaning => 1
    case CallerDone => 0
  }

  function Left(s: State): nat {
    HelperLeft(s.helper) + CallerLeft(s.caller)
  }

  /** Neither thread can be left waiting for the other, interrupts or not. */
  lemma NotStuck(s: State) returns (step: Step)
    requires Inv(s) && !Settled(s)
    ensures Enabled(s, step) && step != Interrupt
  {
    if s.caller == CallerDone {
      step := match s.helper
        case Creating => Create
        case Publishing => Publish
        case AwaitingOwnership => Decide
        case _ => HelperRemove;
    } else {
      step := match s.caller
        case Waiting => Wake
        case Locking => Lock
        case Checking => Check
        case LeaseFilled => Claim
        case Claimed => Signal
        case Abandoned => Signal
        case Signalled => LeaveBlock
        case Delegated => LeaveBlock
        case Unwinding => Handle
        case Using => EndBody
        case _ => Cleanup;
    }
  }

  /** Every run has at most 14 steps, so by `NotStuck` every maximal run settles. */
  lemma {:induction false} RunsAreShort(path: seq<State>, steps: seq<Step>)
    requires IsRun(path, steps)
    ensures |steps| + Left(path[|steps|]) <= Left(path[0])
  {
    if steps != [] {
      var n := |steps| - 1;
      RunsAreShort(path[..n + 1], steps[..n]);
      StepShrinks(path[n], steps[n], path[n + 1]);
    }
  }

  lemma HelperStepShrinks(s: State, step: Step)
    requires Enabled(s, step) && IsHelperStep(step)
    ensures Apply(s, step).caller == s.caller && HelperLeft(Apply(s, step).helper) < HelperLeft(s.helper)
  {
    match step
    case Create =>
    case Publish =>
    case Decide =>
    case HelperRemove =>
  }

  lemma InterruptShrinks(s: State)
    requires Enabled(s, Interrupt)
    ensures Apply(s, Interrupt).helper == s.helper && CallerLeft(Apply(s, Interrupt).caller) < CallerLeft(s.caller)
  {
  }

  lemma CallerStepShrinks(s: State, step: Step)
    requires Enabled(s, step) && !IsHelperStep(step) && !step.Interrupt?
    ensures Apply(s, step).helper == s.helper && CallerLeft(Apply(s, step).caller) < CallerLeft(s.caller)
  {
    match step
    case Wake =>
    case Lock =>
    case Check =>
    case Claim =>
    case Signal =>
    case LeaveBlock =>
    case Handle =>
    case EndBody =>
    case Cleanup =>
  }

  lemma StepShrinks(s: State, step: Step, t: State)
    requires Next(s, step, t)
    ensures Left(t) < Left(s)
  {
    if IsHelperStep(step) {
      HelperStepShrinks(s, step);
    } else if step.Interrupt? {
      InterruptShrinks(s);
    } else {
      CallerStepShrinks(s, step);
    }
  }
}
