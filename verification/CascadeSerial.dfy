/** When each completion is handled to its end before the project's next one is, and every mark is
    written, no task is submitted twice and every submission finds all dependencies deployed. */
module CascadeSerial {
  import opened Common
  import opened CascadeModel
  import opened CascadeSafety
  import opened CascadeOrder

  /** No completion of a project arrives while one of its handlers is still running, and no mark fails. */
  ghost predicate SerialStep(s: State, a: Step)
    requires WellFormed(s) && Enabled(s, a)
  {
    && (a.Complete? ==> forall h :: h in s.handlers ==> s.handlers[h].project != ProjectOf(s, a.r))
    && (a.Mark? ==> a.written)
  }

  ghost predicate SerialRun(s: State, acts: seq<Step>)
    requires WellFormed(s)
    decreases |acts|
  {
    acts != [] ==> Enabled(s, acts[0]) && SerialStep(s, acts[0]) && SerialRun(Apply(s, acts[0]), acts[1..])
  }

  ghost predicate DistinctPhase(ph: Phase) {
    match ph
    case Woken => true
    case Checking(unchecked, kept) => Distinct(unchecked) && Distinct(kept) && forall t :: t in unchecked ==> t !in kept
    case Dispatching(todo) => Distinct(todo)
    case Marking(_, _, todo) => Distinct(todo)
  }

  ghost predicate OneHandlerEach(s: State) {
    && (forall g, h :: g in s.handlers && h in s.handlers && s.handlers[g].project == s.handlers[h].project ==> g == h)
    && (forall h :: h in s.handlers ==> DistinctPhase(s.handlers[h].phase))
  }

  /** What a handler has yet to submit was never submitted. */
  ghost predicate HeldIsNew(s: State) {
    forall h, t :: h in s.handlers && Names(s.handlers[h].phase, t) ==> !Logged(s.log, t)
  }

  /** A handler marks a task of its own project, under a request of that task. */
  ghost predicate MarkingAtHome(s: State)
    requires WellFormed(s)
  {
    forall h :: h in s.handlers && s.handlers[h].phase.Marking? ==> AtHome(s, s.handlers[h])
  }

  predicate AtHome(s: State, hd: Handler)
    requires hd.phase.Marking?
  {
    && hd.phase.request in s.requests && s.requests[hd.phase.request].task == hd.phase.task
    && hd.phase.task in s.plan.rows && s.plan.rows[hd.phase.task].project == hd.project
  }

  ghost predicate SerialInv(s: State) {
    SafetyInv(s) && s.markFailed == {} && NoTaskTwice(s.log) && OneHandlerEach(s) && HeldIsNew(s) && MarkingAtHome(s)
  }

  lemma MovedStaysDistinct(s: State, a: Step)
    requires WellFormed(s) && Enabled(s, a) && (a.Read? || a.Check? || a.Abandon? || a.Fire? || a.Mark?)
    requires DistinctPhase(s.handlers[a.h].phase)
    ensures Moved(s, a).Some? ==> DistinctPhase(Moved(s, a).value)
  {
    var ph := s.handlers[a.h].phase;
    if a.Read? {
      ReadyInDistinct(s.plan, s.status, s.handlers[a.h].project, s.plan.order);
    } else if a.Check? {
      if ph.unchecked != [] {
        TailDistinct(ph.unchecked);
        AppendDistinct(ph.kept, ph.unchecked[0]);
      }
    } else if a.Fire? {
      if ph.todo != [] { TailDistinct(ph.todo); }
    }
  }

  lemma PhaseStaysDistinct(s: State, a: Step, z: State, h: nat)
    requires Next(s, a, z) && OneHandlerEach(s) && h in z.handlers
    ensures DistinctPhase(z.handlers[h].phase)
  {
    HandlerFrame(s, a, z, h);
    if h in s.handlers && z.handlers[h] != s.handlers[h] { MovedPhaseIsDistinct(s, a, z); }
  }

  lemma MovedPhaseIsDistinct(s: State, a: Step, z: State)
    requires Next(s, a, z) && (a.Read? || a.Check? || a.Abandon? || a.Fire? || a.Mark?)
    requires DistinctPhase(s.handlers[a.h].phase) && a.h in z.handlers
    ensures DistinctPhase(z.handlers[a.h].phase)
  {
    HandlersFrame(s, a, z);
    MovedStaysDistinct(s, a);
  }

  lemma HandlersStep(s: State, a: Step, z: State)
    requires Next(s, a, z) && OneHandlerEach(s) && SerialStep(s, a)
    ensures OneHandlerEach(z)
  {
    forall h | h in z.handlers ensures DistinctPhase(z.handlers[h].phase) { PhaseStaysDistinct(s, a, z, h); }
    forall g, h | g in z.handlers && h in z.handlers && z.handlers[g].project == z.handlers[h].project ensures g == h {
      HandlerFrame(s, a, z, g);
      HandlerFrame(s, a, z, h);
    }
  }

  lemma MarkingStep(s: State, a: Step, z: State)
    requires SerialInv(s) && Next(s, a, z) && WellFormed(z)
    ensures MarkingAtHome(z)
  {
    forall h | h in z.handlers && z.handlers[h].phase.Marking? ensures AtHome(z, z.handlers[h]) {
      MarkingFrame(s, a, z, h);
      HandlerFrame(s, a, z, h);
      if s.handlers[h] == z.handlers[h] {
        RequestFrame(s, a, z, z.handlers[h].phase.request);
        PlanStays(s, a, z);
      } else {
        NewMarkingAtHome(s, a, z, h);
      }
    }
  }

  lemma PlanStays(s: State, a: Step, z: State)
    requires Next(s, a, z)
    ensures z.plan == s.plan
  {
  }

  lemma NewMarkingAtHome(s: State, a: Step, z: State, h: nat)
    requires SafetyInv(s) && Next(s, a, z) && h in s.handlers && h in z.handlers && z.handlers[h].phase.Marking?
    requires s.handlers[h].project == z.handlers[h].project
    requires a.Fire? && a.h == h && a.r == z.handlers[h].phase.request && Submitted(s, a) == {z.handlers[h].phase.task}
    ensures AtHome(z, z.handlers[h])
  {
    var t := z.handlers[h].phase.task;
    LogFrame(s, a, z);
    assert t in Submitted(s, a) && Names(s.handlers[h].phase, t);
    assert HeldTask(s, s.handlers[h].project, t);
    RequestsFrame(s, a, z);
    PlanStays(s, a, z);
  }

  /** A task that is ready was never submitted: it would show in the backlog by a mark still to come,
      of the handler that is only reading now. */
  lemma ReadyIsNew(s: State, h: nat, t: TaskId)
    requires SerialInv(s) && h in s.handlers && s.handlers[h].phase.Woken?
    requires Ready(s.plan, s.status, s.handlers[h].project, t)
    ensures !Logged(s.log, t)
  {
    forall g | g in s.handlers && s.handlers[g].phase.Marking? ensures s.handlers[g].phase.task != t {
      assert AtHome(s, s.handlers[g]);
    }
    assert !BeingMarked(s, t);
  }

  /** What the step submits was held by its handler alone, and is not in the rest of its list. */
  lemma SubmittedIsGone(s: State, a: Step, z: State, h: nat, t: TaskId)
    requires SerialInv(s) && Next(s, a, z) && t in Submitted(s, a)
    requires h in s.handlers && h in z.handlers && Names(s.handlers[h].phase, t)
    ensures !Names(z.handlers[h].phase, t)
  {
    LogFrame(s, a, z);
    assert HeldTask(s, s.handlers[h].project, t) && HeldTask(s, s.handlers[a.h].project, t);
    HandlersFrame(s, a, z);
    TailDistinct(s.handlers[h].phase.todo);
  }

  lemma HeldIsNewStep(s: State, a: Step, z: State)
    requires SerialInv(s) && Next(s, a, z)
    ensures HeldIsNew(z)
  {
    forall h, t | h in z.handlers && Names(z.handlers[h].phase, t) ensures !Logged(z.log, t) {
      NamesFrame(s, a, z, h, t);
      LoggedFrame(s, a, z, t);
      if Names(s.handlers[h].phase, t) {
        if t in Submitted(s, a) { SubmittedIsGone(s, a, z, h, t); }
      } else {
        ReadyIsNew(s, h, t);
      }
    }
  }

  lemma NothingTwice(s: State, a: Step, z: State)
    requires SerialInv(s) && Next(s, a, z)
    ensures NoTaskTwice(z.log)
  {
    LogFrame(s, a, z);
    if Submitted(s, a) != {} {
      var t := s.handlers[a.h].phase.todo[0];
      assert !Logged(s.log, t);
      assert forall k :: 0 <= k < |s.log| ==> s.log[k].task != t;
    }
  }

  lemma StepKeepsSerial(s: State, a: Step, z: State)
    requires SerialInv(s) && Next(s, a, z) && SerialStep(s, a)
    ensures SerialInv(z)
  {
    StepKeepsSafety(s, a, z);
    MarkFailedFrame(s, a, z);
    HandlersStep(s, a, z);
    MarkingStep(s, a, z);
    HeldIsNewStep(s, a, z);
    NothingTwice(s, a, z);
  }

  /** While a handler marks a task, no completion of the task's project arrives. */
  lemma CompletionIsMarked(s: State, a: Step)
    requires SerialInv(s) && Enabled(s, a) && SerialStep(s, a) && a.Complete?
    ensures !Unmarked(s, a.r)
  {
    forall h | h in s.handlers && s.handlers[h].phase.Marking? ensures s.handlers[h].phase.request != a.r {
      assert AtHome(s, s.handlers[h]);
    }
  }

  lemma {:induction false} SerialRunKeeps(s: State, acts: seq<Step>, z: State)
    requires SerialInv(s) && Runs(s, acts, z) && SerialRun(s, acts)
    ensures SerialInv(z) && CompletionsAreMarked(s, acts)
    decreases |acts|
  {
    if acts != [] {
      if acts[0].Complete? { CompletionIsMarked(s, acts[0]); }
      StepKeepsSerial(s, acts[0], Apply(s, acts[0]));
      SerialRunKeeps(Apply(s, acts[0]), acts[1..], z);
    }
  }

  /** In a serial run no task is submitted twice, even when a completion is delivered again, and every
      submission finds its task in the backlog with all dependencies deployed at that moment. */
  lemma SerialRunDispatchesOnceAndInOrder(s: State, acts: seq<Step>, z: State)
    requires Start(s) && OneLiveEach(s) && DeployedIsSettled(s)
    requires Runs(s, acts, z) && SerialRun(s, acts)
    ensures NoTaskTwice(z.log)
    ensures forall k :: 0 <= k < |z.log| ==> z.log[k].fromBacklog && z.log[k].depsDeployedNow
  {
    StartIsSafe(s);
    SerialRunKeeps(s, acts, z);
    TwiceIffNotClear(s, acts, z);
    forall k | 0 <= k < |z.log| ensures z.log[k].fromBacklog && z.log[k].depsDeployedNow {
      assert Clear(z.log[k]);
      DependenciesDeployedAtEverySubmission(s, acts, z, k);
    }
  }
}
