/** When no task is submitted twice and no request completes before its task is marked, every submission
    in every interleaving finds all dependencies deployed at that moment. */
module CascadeOrder {
  import opened CascadeModel
  import opened CascadeSafety

  /** No request completes before its task is marked. */
  ghost predicate CompletionsAreMarked(s: State, acts: seq<Step>)
    requires WellFormed(s)
    decreases |acts|
  {
    acts != [] ==>
      && Enabled(s, acts[0])
      && (acts[0].Complete? ==> !Unmarked(s, acts[0].r))
      && CompletionsAreMarked(Apply(s, acts[0]), acts[1..])
  }

  /** At most one request of a task is open or completed, and a submitted task has only one request. */
  ghost predicate OneLiveEach(s: State) {
    forall q, r :: q in s.requests && r in s.requests && s.requests[q].task == s.requests[r].task && q != r ==>
      !Logged(s.log, s.requests[q].task) && (s.requests[q].outcome == Ended || s.requests[r].outcome == Ended)
  }

  /** A deployed task has no open request. */
  ghost predicate DeployedIsSettled(s: State)
    requires WellFormed(s)
  {
    forall r :: r in s.requests && s.status[s.requests[r].task] == Deployed ==> s.requests[r].outcome != Open
  }

  /** A handler marks the task of its request, and that is not deployed yet. */
  ghost predicate MarkingIsEarly(s: State)
    requires WellFormed(s)
  {
    forall h :: h in s.handlers && s.handlers[h].phase.Marking? ==>
      var Marking(t, r, _) := s.handlers[h].phase;
      r in s.requests && s.requests[r].task == t && s.status[t] != Deployed
  }

  ghost predicate OrderInv(s: State) {
    SafetyInv(s) && OneLiveEach(s) && DeployedIsSettled(s) && MarkingIsEarly(s) && s.overwritten == {}
  }

  /** The step submits nothing that was submitted before and completes nothing that is not marked. */
  ghost predicate Orderly(s: State, a: Step)
    requires WellFormed(s) && Enabled(s, a)
  {
    && (forall t :: t in Submitted(s, a) ==> !Logged(s.log, t))
    && (a.Complete? ==> !Unmarked(s, a.r))
  }

  lemma SubmittedHasNoRequest(s: State, a: Step)
    requires SafetyInv(s) && Enabled(s, a) && Orderly(s, a)
    ensures forall q :: q in s.requests ==> s.requests[q].task !in Submitted(s, a)
  {
    if Submitted(s, a) != {} {
      var t := s.handlers[a.h].phase.todo[0];
      assert Names(s.handlers[a.h].phase, t);
      assert HeldTask(s, s.handlers[a.h].project, t);
      assert s.status[t] == Backlog;
    }
  }

  lemma OneLiveStep(s: State, a: Step, z: State)
    requires OrderInv(s) && Next(s, a, z) && Orderly(s, a)
    ensures OneLiveEach(z)
  {
    forall q, r | q in z.requests && r in z.requests && z.requests[q].task == z.requests[r].task && q != r
      ensures !Logged(z.log, z.requests[q].task) && (z.requests[q].outcome == Ended || z.requests[r].outcome == Ended)
    {
      RequestFrame(s, a, z, q);
      RequestFrame(s, a, z, r);
      OldPair(s, a, z, q, r);
      LoggedFrame(s, a, z, z.requests[q].task);
      OutcomeFrame(s, a, z, q);
      OutcomeFrame(s, a, z, r);
      if a.Reopen? { ReopenedIsLogged(s, a); }
    }
  }

  lemma ReopenedIsLogged(s: State, a: Step)
    requires SafetyInv(s) && MarkingIsEarly(s) && a.Reopen? && Enabled(s, a)
    ensures Logged(s.log, s.requests[a.r].task)
  {
    var h :| h in s.handlers && s.handlers[h].phase.Marking? && s.handlers[h].phase.request == a.r;
    assert s.handlers[h].phase.task == s.requests[a.r].task;
  }

  /** Neither of two requests of one task is new, and the task is not the one submitted. */
  lemma OldPair(s: State, a: Step, z: State, q: RequestId, r: RequestId)
    requires OrderInv(s) && Next(s, a, z) && Orderly(s, a)
    requires q in z.requests && r in z.requests && z.requests[q].task == z.requests[r].task && q != r
    ensures q in s.requests && r in s.requests && z.requests[q].task !in Submitted(s, a)
  {
    RequestFrame(s, a, z, q);
    RequestFrame(s, a, z, r);
    SubmittedHasNoRequest(s, a);
  }

  lemma SettledStep(s: State, a: Step, z: State)
    requires OrderInv(s) && Next(s, a, z) && Orderly(s, a) && WellFormed(z)
    ensures DeployedIsSettled(z)
  {
    forall r | r in z.requests && z.status[z.requests[r].task] == Deployed ensures z.requests[r].outcome != Open {
      SettledRequest(s, a, z, r);
    }
  }

  lemma SettledRequest(s: State, a: Step, z: State, r: RequestId)
    requires OrderInv(s) && Next(s, a, z) && Orderly(s, a) && WellFormed(z)
    requires r in z.requests && z.status[z.requests[r].task] == Deployed
    ensures z.requests[r].outcome != Open
  {
    RequestFrame(s, a, z, r);
    var t := z.requests[r].task;
    StatusFrame(s, a, z, t);
    if r in s.requests {
      OutcomeFrame(s, a, z, r);
      if t in Touched(s, a) { DeployingFrame(s, a, z, t); }
    } else {
      NewRequestIsWaiting(s, a, z, r);
    }
  }

  lemma NewRequestIsWaiting(s: State, a: Step, z: State, r: RequestId)
    requires SafetyInv(s) && Next(s, a, z) && Orderly(s, a) && r in z.requests && r !in s.requests
    ensures z.requests[r].task in z.status && z.status[z.requests[r].task] == Backlog
  {
    RequestFrame(s, a, z, r);
    var t := z.requests[r].task;
    assert Names(s.handlers[a.h].phase, t);
    assert HeldTask(s, s.handlers[a.h].project, t);
    StatusFrame(s, a, z, t);
  }

  lemma MarkingStep(s: State, a: Step, z: State)
    requires OrderInv(s) && Next(s, a, z) && Orderly(s, a) && WellFormed(z)
    ensures MarkingIsEarly(z)
  {
    forall h | h in z.handlers && z.handlers[h].phase.Marking?
      ensures var Marking(t, r, _) := z.handlers[h].phase;
              r in z.requests && z.requests[r].task == t && z.status[t] != Deployed
    {
      MarkingFrame(s, a, z, h);
      if s.handlers[h] == z.handlers[h] {
        OldMarking(s, a, z, h);
      } else {
        NewMarking(s, a, z, h);
      }
    }
  }

  lemma NewMarking(s: State, a: Step, z: State, h: nat)
    requires OrderInv(s) && Next(s, a, z) && Orderly(s, a) && h in z.handlers && z.handlers[h].phase.Marking?
    requires a.Fire? && a.h == h && a.r == z.handlers[h].phase.request && Submitted(s, a) == {z.handlers[h].phase.task}
    ensures a.r in z.requests && z.requests[a.r].task == z.handlers[h].phase.task
    ensures z.requests[a.r].task in z.status && z.status[z.requests[a.r].task] != Deployed
  {
    RequestsFrame(s, a, z);
    NewRequestIsWaiting(s, a, z, a.r);
  }

  lemma OldMarking(s: State, a: Step, z: State, h: nat)
    requires OrderInv(s) && Next(s, a, z) && Orderly(s, a) && h in s.handlers && s.handlers[h].phase.Marking?
    ensures var Marking(t, r, _) := s.handlers[h].phase;
            r in z.requests && z.requests[r].task == t && t in z.status && z.status[t] != Deployed
  {
    var Marking(t, r, _) := s.handlers[h].phase;
    RequestFrame(s, a, z, r);
    StatusFrame(s, a, z, t);
    if t in Touched(s, a) && z.status[t] == Deployed {
      DeployingFrame(s, a, z, t);
      assert Logged(s.log, t);
      assert a.r == r;
      assert Unmarked(s, r);
    }
  }

  lemma NothingOverwritten(s: State, a: Step, z: State)
    requires OrderInv(s) && Next(s, a, z) && Orderly(s, a)
    ensures z.overwritten == {}
  {
    forall t | t in s.status ensures t !in z.overwritten { OverwritingIff(s, a, z, t); }
    forall t | t in z.overwritten ensures t in s.status { OverwrittenIsATask(s, a, z, t); }
  }

  lemma OverwrittenIsATask(s: State, a: Step, z: State, t: TaskId)
    requires Next(s, a, z) && t in z.overwritten && s.overwritten == {}
    ensures t in s.status
  {
  }

  lemma StepKeepsOrder(s: State, a: Step, z: State)
    requires OrderInv(s) && Next(s, a, z) && Orderly(s, a)
    ensures OrderInv(z)
  {
    StepKeepsSafety(s, a, z);
    OneLiveStep(s, a, z);
    SettledStep(s, a, z);
    MarkingStep(s, a, z);
    NothingOverwritten(s, a, z);
  }

  lemma {:induction false} LogOnlyGrows(s: State, acts: seq<Step>, z: State)
    requires Runs(s, acts, z)
    ensures s.log <= z.log
    decreases |acts|
  {
    if acts != [] {
      LogFrame(s, acts[0], Apply(s, acts[0]));
      LogOnlyGrows(Apply(s, acts[0]), acts[1..], z);
    }
  }

  /** If nothing is submitted twice in the end, a step of the run submits nothing a second time. */
  lemma StepIsOrderly(s: State, acts: seq<Step>, z: State)
    requires Runs(s, acts, z) && acts != [] && NoTaskTwice(z.log) && CompletionsAreMarked(s, acts)
    ensures Orderly(s, acts[0])
  {
    var a := acts[0];
    var m := Apply(s, a);
    LogFrame(s, a, m);
    LogOnlyGrows(m, acts[1..], z);
    forall t, k | t in Submitted(s, a) && 0 <= k < |s.log| ensures s.log[k].task != t {
      assert z.log[k] == s.log[k] && z.log[|s.log|].task == t;
    }
  }

  lemma {:induction false} RunKeepsOrder(s: State, acts: seq<Step>, z: State)
    requires OrderInv(s) && Runs(s, acts, z) && NoTaskTwice(z.log) && CompletionsAreMarked(s, acts)
    ensures OrderInv(z)
    decreases |acts|
  {
    if acts != [] {
      StepIsOrderly(s, acts, z);
      StepKeepsOrder(s, acts[0], Apply(s, acts[0]));
      RunKeepsOrder(Apply(s, acts[0]), acts[1..], z);
    }
  }

  lemma EntryFindsNothing(s: State, a: Step, z: State, k: nat)
    requires OrderInv(s) && Next(s, a, z) && |s.log| <= k < |z.log|
    ensures z.log[k].overwritten == {}
  {
    LogFrame(s, a, z);
  }

  /** Every entry of the log of such a run finds nothing overwritten. */
  lemma {:induction false} EntriesFindNothing(s: State, acts: seq<Step>, z: State, k: nat)
    requires OrderInv(s) && Runs(s, acts, z) && NoTaskTwice(z.log) && CompletionsAreMarked(s, acts)
    requires |s.log| <= k < |z.log|
    ensures z.log[k].overwritten == {}
    decreases |acts|
  {
    var a := acts[0];
    var m := Apply(s, a);
    StepIsOrderly(s, acts, z);
    StepKeepsOrder(s, a, m);
    LogOnlyGrows(m, acts[1..], z);
    if k < |m.log| {
      EntryFindsNothing(s, a, m, k);
    } else {
      EntriesFindNothing(m, acts[1..], z, k);
    }
  }

  /** From a start with at most one request of a task open or completed, and none open for a deployed
      task: in every interleaving, handlers side by side or not, in which no task is submitted twice
      and no request completes before its task is marked, every submission finds all its
      dependencies deployed at that moment. */
  lemma DependenciesDeployedAtEverySubmission(s: State, acts: seq<Step>, z: State, k: nat)
    requires Start(s) && OneLiveEach(s) && DeployedIsSettled(s)
    requires Runs(s, acts, z) && NoTaskTwice(z.log) && CompletionsAreMarked(s, acts) && k < |z.log|
    ensures z.log[k].depsDeployedNow
  {
    StartIsSafe(s);
    EntriesFindNothing(s, acts, z, k);
    DependenciesDeployFirst(s, acts, z, k);
  }
}
