/** Safety of the task cascade in every interleaving: dependency order, and exactly when a task is
    submitted twice or submitted while a dependency is no longer deployed. */
module CascadeSafety {
  import opened CascadeModel

  ghost predicate Logged(log: seq<Firing>, t: TaskId) {
    exists k :: 0 <= k < |log| && log[k].task == t
  }

  /** The task is listed, and so is every dependency, which is one of the given tasks. */
  ghost predicate DepsIn(plan: Plan, t: TaskId, ids: set<TaskId>)
    requires ValidPlan(plan)
  {
    && t in plan.rows && Listed(plan, plan.rows[t].project, t)
    && forall d :: d in plan.rows[t].deps ==> Listed(plan, plan.rows[t].project, d) && d in ids
  }

  /** The task is in the backlog, no handler is about to mark it, and no mark of it has failed. */
  predicate Clear(f: Firing) {
    f.fromBacklog && !f.beingMarked && !f.markFailed
  }

  /** A task held by a handler has dependencies that have been deployed, and if it has left the
      backlog meanwhile, the cascade itself submitted it. */
  ghost predicate HeldWasReady(s: State)
    requires WellFormed(s)
  {
    forall h, t :: h in s.handlers && Names(s.handlers[h].phase, t) ==> HeldTask(s, s.handlers[h].project, t)
  }

  ghost predicate HeldTask(s: State, p: ProjectId, t: TaskId)
    requires WellFormed(s)
  {
    DepsIn(s.plan, t, s.everDeployed) && s.plan.rows[t].project == p && (s.status[t] != Backlog ==> Logged(s.log, t))
  }

  /** A submitted task has left the backlog, is about to be marked, or its mark failed; nothing else is
      about to be marked or failed to be; and a backlog task has a request only if it was submitted. */
  ghost predicate SubmittedShows(s: State)
    requires WellFormed(s)
  {
    && (forall k :: 0 <= k < |s.log| ==>
          s.log[k].task in s.status
          && (s.status[s.log[k].task] != Backlog || BeingMarked(s, s.log[k].task) || s.log[k].task in s.markFailed))
    && (forall h :: h in s.handlers && s.handlers[h].phase.Marking? ==> Logged(s.log, s.handlers[h].phase.task))
    && (forall t :: t in s.markFailed ==> Logged(s.log, t))
    && (forall r :: r in s.requests ==> s.status[s.requests[r].task] != Backlog || Logged(s.log, s.requests[r].task))
  }

  ghost predicate LogIsFaithful(plan: Plan, log: seq<Firing>)
    requires ValidPlan(plan)
  {
    forall k :: 0 <= k < |log| ==> EntryIsFaithful(plan, log, k)
  }

  /** The entry tells whether the task was submitted before, and whether its dependencies are deployed. */
  ghost predicate EntryIsFaithful(plan: Plan, log: seq<Firing>, k: nat)
    requires ValidPlan(plan) && k < |log|
  {
    var f := log[k];
    && DepsIn(plan, f.task, f.everDeployed)
    && (Clear(f) <==> !Logged(log[..k], f.task))
    && (f.depsDeployedNow <==> forall d :: d in plan.rows[f.task].deps ==> d !in f.overwritten)
  }

  /** A task that has been deployed still is, unless that was overwritten. */
  ghost predicate Remembers(s: State)
    requires WellFormed(s)
  {
    forall t :: t in s.status ==>
      && (s.status[t] == Deployed ==> t in s.everDeployed && t !in s.overwritten)
      && (t in s.everDeployed && s.status[t] != Deployed ==> t in s.overwritten)
  }

  ghost predicate SafetyInv(s: State) {
    WellFormed(s) && Remembers(s) && HeldWasReady(s) && SubmittedShows(s) && LogIsFaithful(s.plan, s.log)
  }

  lemma RemembersStep(s: State, a: Step, z: State)
    requires WellFormed(s) && Remembers(s) && Next(s, a, z)
    ensures WellFormed(z) && Remembers(z)
  {
    forall t | t in z.status
      ensures z.status[t] == Deployed ==> t in z.everDeployed && t !in z.overwritten
      ensures t in z.everDeployed && z.status[t] != Deployed ==> t in z.overwritten
    {
      StatusFrame(s, a, z, t);
      OverwrittenFrame(s, a, z, t);
      DeployedFrame(s, a, z, t);
    }
  }

  lemma LoggedStays(log: seq<Firing>, f: Firing, t: TaskId)
    ensures Logged(log + [f], t) <==> Logged(log, t) || f.task == t
  {
    if Logged(log, t) {
      var k :| 0 <= k < |log| && log[k].task == t;
      assert (log + [f])[k].task == t;
    }
    assert (log + [f])[|log|] == f;
  }

  /** Being submitted lasts; the task of the step itself is submitted by it. */
  lemma LoggedFrame(s: State, a: Step, z: State, t: TaskId)
    requires Next(s, a, z)
    ensures Logged(z.log, t) <==> Logged(s.log, t) || t in Submitted(s, a)
  {
    LogFrame(s, a, z);
    if Submitted(s, a) != {} {
      LoggedStays(s.log, Snapshot(s, s.handlers[a.h].project, s.handlers[a.h].phase.todo[0]), t);
    }
  }

  /** Only tasks that have been submitted, or were never in the backlog, are written. */
  lemma TouchedWasSubmitted(s: State, a: Step, t: TaskId)
    requires WellFormed(s) && SubmittedShows(s) && Enabled(s, a) && t in Touched(s, a)
    ensures t in s.status && (s.status[t] == Backlog ==> Logged(s.log, t))
  {
  }

  lemma EverDeployedGrows(s: State, a: Step, z: State)
    requires Next(s, a, z)
    ensures s.everDeployed <= z.everDeployed && z.plan == s.plan
  {
    forall t | t in s.everDeployed ensures t in z.everDeployed { DeployedFrame(s, a, z, t); }
  }

  lemma HeldStep(s: State, a: Step, z: State)
    requires SafetyInv(s) && Next(s, a, z)
    ensures WellFormed(z) && HeldWasReady(z)
  {
    EverDeployedGrows(s, a, z);
    forall h, t | h in z.handlers && Names(z.handlers[h].phase, t) ensures HeldTask(z, z.handlers[h].project, t) {
      NamesFrame(s, a, z, h, t);
      HeldNow(s, h, t);
      HeldTaskStep(s, a, z, s.handlers[h].project, t);
    }
  }

  lemma HeldNow(s: State, h: nat, t: TaskId)
    requires SafetyInv(s) && h in s.handlers
    requires Names(s.handlers[h].phase, t) || Ready(s.plan, s.status, s.handlers[h].project, t)
    ensures HeldTask(s, s.handlers[h].project, t)
  {
  }

  lemma HeldTaskStep(s: State, a: Step, z: State, p: ProjectId, t: TaskId)
    requires WellFormed(s) && SubmittedShows(s) && Next(s, a, z) && WellFormed(z) && HeldTask(s, p, t)
    requires s.everDeployed <= z.everDeployed && z.plan == s.plan
    ensures HeldTask(z, p, t)
  {
    StatusFrame(s, a, z, t);
    LoggedFrame(s, a, z, t);
    if t in Touched(s, a) { TouchedWasSubmitted(s, a, t); }
  }

  /** A submitted task keeps showing that it was. */
  lemma ShowsStep(s: State, a: Step, z: State, t: TaskId)
    requires Next(s, a, z) && t in s.status
    requires s.status[t] != Backlog || BeingMarked(s, t) || t in s.markFailed || t in Submitted(s, a)
    ensures z.status[t] != Backlog || BeingMarked(z, t) || t in z.markFailed
  {
    StatusFrame(s, a, z, t);
    MarkFailedFrame(s, a, z);
    if t in Submitted(s, a) {
      SubmittedIsBeingMarked(s, a, z, t);
    } else if t !in Touched(s, a) && s.status[t] == Backlog && t !in z.markFailed {
      BeingMarkedStays(s, a, z, t);
    }
  }

  lemma SubmittedIsBeingMarked(s: State, a: Step, z: State, t: TaskId)
    requires Next(s, a, z) && t in Submitted(s, a)
    ensures BeingMarked(z, t)
  {
    assert a.h in z.handlers && z.handlers[a.h].phase.Marking? && z.handlers[a.h].phase.task == t;
  }

  lemma BeingMarkedStays(s: State, a: Step, z: State, t: TaskId)
    requires Next(s, a, z) && BeingMarked(s, t)
    requires !(a.Mark? && s.handlers[a.h].phase.task == t)
    ensures BeingMarked(z, t)
  {
    var h :| h in s.handlers && s.handlers[h].phase.Marking? && s.handlers[h].phase.task == t;
    OthersStayPut(s, a, z, h);
  }

  lemma OthersStayPut(s: State, a: Step, z: State, h: nat)
    requires Next(s, a, z) && h in s.handlers && s.handlers[h].phase.Marking? && !(a.Mark? && a.h == h)
    ensures h in z.handlers && z.handlers[h] == s.handlers[h]
  {
    HandlersFrame(s, a, z);
  }

  lemma MarkFailedFrame(s: State, a: Step, z: State)
    requires Next(s, a, z)
    ensures z.markFailed == if a.Mark? && !a.written then s.markFailed + {s.handlers[a.h].phase.task} else s.markFailed
  {
  }

  lemma SubmittedStep(s: State, a: Step, z: State)
    requires SafetyInv(s) && Next(s, a, z) && WellFormed(z)
    ensures SubmittedShows(z)
  {
    forall k | 0 <= k < |z.log|
      ensures z.log[k].task in z.status
              && (z.status[z.log[k].task] != Backlog || BeingMarked(z, z.log[k].task) || z.log[k].task in z.markFailed)
    {
      LoggedTaskShows(s, a, z, z.log[k].task);
    }
    MarkFailedFrame(s, a, z);
    forall h | h in z.handlers && z.handlers[h].phase.Marking? ensures Logged(z.log, z.handlers[h].phase.task) {
      MarkingFrame(s, a, z, h);
      LoggedFrame(s, a, z, z.handlers[h].phase.task);
    }
    forall t | t in z.markFailed ensures Logged(z.log, t) { LoggedFrame(s, a, z, t); }
    forall r | r in z.requests ensures z.status[z.requests[r].task] != Backlog || Logged(z.log, z.requests[r].task) {
      RequestShows(s, a, z, r);
    }
  }

  lemma LoggedTaskShows(s: State, a: Step, z: State, t: TaskId)
    requires SafetyInv(s) && Next(s, a, z) && Logged(z.log, t)
    ensures t in z.status && (z.status[t] != Backlog || BeingMarked(z, t) || t in z.markFailed)
  {
    LoggedFrame(s, a, z, t);
    if t in Submitted(s, a) {
      LogFrame(s, a, z);
    } else {
      var k :| 0 <= k < |s.log| && s.log[k].task == t;
    }
    ShowsStep(s, a, z, t);
  }

  lemma RequestShows(s: State, a: Step, z: State, r: RequestId)
    requires SafetyInv(s) && Next(s, a, z) && r in z.requests && z.requests[r].task in z.status
    ensures z.status[z.requests[r].task] != Backlog || Logged(z.log, z.requests[r].task)
  {
    RequestFrame(s, a, z, r);
    LoggedFrame(s, a, z, z.requests[r].task);
    StatusFrame(s, a, z, z.requests[r].task);
  }

  lemma LogStep(s: State, a: Step, z: State)
    requires SafetyInv(s) && Next(s, a, z)
    ensures LogIsFaithful(s.plan, z.log)
  {
    LogFrame(s, a, z);
    if Submitted(s, a) != {} {
      var p, t := s.handlers[a.h].project, s.handlers[a.h].phase.todo[0];
      assert HeldTask(s, p, t);
      EntryTells(s, p, t);
      Grows(s.plan, s.log, Snapshot(s, p, t));
    }
  }

  /** The entry for a held task says whether it was submitted before and whether its dependencies are
      deployed now. */
  lemma EntryTells(s: State, p: ProjectId, t: TaskId)
    requires SafetyInv(s) && HeldTask(s, p, t)
    ensures var f := Snapshot(s, p, t);
            && (Clear(f) <==> !Logged(s.log, t))
            && (f.depsDeployedNow <==> forall d :: d in s.plan.rows[t].deps ==> d !in f.overwritten)
  {
    if BeingMarked(s, t) {
      var h :| h in s.handlers && s.handlers[h].phase.Marking? && s.handlers[h].phase.task == t;
      assert Logged(s.log, t);
    }
    forall d | d in s.plan.rows[t].deps ensures s.status[d] == Deployed <==> d !in s.overwritten {
      assert Listed(s.plan, p, d) && d in s.everDeployed;
    }
  }

  lemma Grows(plan: Plan, log: seq<Firing>, f: Firing)
    requires ValidPlan(plan) && LogIsFaithful(plan, log) && DepsIn(plan, f.task, f.everDeployed)
    requires Clear(f) <==> !Logged(log, f.task)
    requires f.depsDeployedNow <==> forall d :: d in plan.rows[f.task].deps ==> d !in f.overwritten
    ensures LogIsFaithful(plan, log + [f])
  {
    forall k | 0 <= k < |log + [f]| ensures EntryIsFaithful(plan, log + [f], k) {
      if k < |log| {
        assert EntryIsFaithful(plan, log, k);
        assert (log + [f])[..k] == log[..k];
      } else {
        assert (log + [f])[..k] == log;
      }
    }
  }

  lemma StartIsSafe(s: State)
    requires Start(s)
    ensures SafetyInv(s)
  {
  }

  lemma {:induction false} RunKeepsSafety(s: State, acts: seq<Step>, z: State)
    requires SafetyInv(s) && Runs(s, acts, z)
    ensures SafetyInv(z) && z.plan == s.plan
    decreases |acts|
  {
    if acts != [] {
      StepKeepsSafety(s, acts[0], Apply(s, acts[0]));
      RunKeepsSafety(Apply(s, acts[0]), acts[1..], z);
    }
  }

  lemma StepKeepsSafety(s: State, a: Step, z: State)
    requires SafetyInv(s) && Next(s, a, z)
    ensures SafetyInv(z)
  {
    RemembersStep(s, a, z);
    HeldStep(s, a, z);
    SubmittedStep(s, a, z);
    LogStep(s, a, z);
  }

  /** In every interleaving each dependency of a submitted task was deployed before the submission, and
      all of them are deployed at that moment exactly if none of them has been overwritten since. */
  lemma DependenciesDeployFirst(s: State, acts: seq<Step>, z: State, k: nat)
    requires Start(s) && Runs(s, acts, z) && k < |z.log|
    ensures ValidPlan(z.plan) && z.log[k].task in z.plan.rows
    ensures forall d :: d in z.plan.rows[z.log[k].task].deps ==> d in z.log[k].everDeployed
    ensures z.log[k].depsDeployedNow <==>
              forall d :: d in z.plan.rows[z.log[k].task].deps ==> d !in z.log[k].overwritten
  {
    StartIsSafe(s);
    RunKeepsSafety(s, acts, z);
    assert EntryIsFaithful(z.plan, z.log, k);
  }

  /** Who overwrites a deployed status: a request of the task that reports, ends or is reopened after
      another one completed, or the mark of a submission whose request completed before it. */
  lemma OverwritingIff(s: State, a: Step, z: State, t: TaskId)
    requires Next(s, a, z) && t in s.status && t !in s.overwritten
    ensures t in z.overwritten <==>
              && s.status[t] == Deployed
              && (((a.Report? || a.End? || a.Reopen?) && s.requests[a.r].task == t)
                  || (a.Mark? && a.written && s.handlers[a.h].phase.task == t))
  {
    OverwrittenFrame(s, a, z, t);
    if t in Touched(s, a) { OnlyCompletionsDeploy(s, a, z, t); }
  }

  lemma OnlyCompletionsDeploy(s: State, a: Step, z: State, t: TaskId)
    requires Next(s, a, z) && t in s.status && t in Touched(s, a)
    ensures z.status[t] == Deployed <==> a.Complete?
  {
  }

  /** A list version that is not archived hides every older one: as long as the plan stays so, finalized
      tasks of the older list are never submitted, however ready they are. */
  lemma NewerListStopsOlderTasks(s: State, acts: seq<Step>, z: State, older: TaskId, newer: TaskId, k: nat)
    requires Start(s) && Runs(s, acts, z) && k < |z.log|
    requires older in s.plan.rows && newer in s.plan.rows && s.plan.rows[older].project == s.plan.rows[newer].project
    requires s.plan.rows[newer].list != Archived && s.plan.rows[older].version < s.plan.rows[newer].version
    ensures z.log[k].task != older
  {
    StartIsSafe(s);
    RunKeepsSafety(s, acts, z);
    assert EntryIsFaithful(z.plan, z.log, k);
    LatestIsNewest(s.plan, s.plan.order, s.plan.rows[newer].project);
    assert Current(s.plan, s.plan.rows[newer].project, newer);
  }

  /** `everDeployed` means what it says: deployed at the start, or by a completion in the run. */
  lemma {:induction false} EverDeployedHasACompletion(s: State, acts: seq<Step>, z: State, t: TaskId) returns (k: int)
    requires Runs(s, acts, z) && t in z.everDeployed
    ensures t !in s.everDeployed ==>
              && 0 <= k < |acts| && acts[k].Complete?
              && acts[k].r in z.requests && z.requests[acts[k].r].task == t
    decreases |acts|
  {
    k := 0;
    if acts != [] && t !in s.everDeployed {
      var m := Apply(s, acts[0]);
      DeployedFrame(s, acts[0], m, t);
      if t in m.everDeployed {
        RequestFrame(s, acts[0], m, acts[0].r);
        RequestsKeepTheirTask(m, acts[1..], z, acts[0].r);
      } else {
        var j := EverDeployedHasACompletion(m, acts[1..], z, t);
        k := j + 1;
      }
    }
  }

  lemma {:induction false} RequestsKeepTheirTask(s: State, acts: seq<Step>, z: State, r: RequestId)
    requires Runs(s, acts, z) && r in s.requests
    ensures r in z.requests && z.requests[r].task == s.requests[r].task
    decreases |acts|
  {
    if acts != [] {
      RequestFrame(s, acts[0], Apply(s, acts[0]), r);
      RequestsKeepTheirTask(Apply(s, acts[0]), acts[1..], z, r);
    }
  }

  // -------- submitted twice --------

  ghost predicate NoTaskTwice(log: seq<Firing>) {
    forall i, j :: 0 <= i < j < |log| ==> log[i].task != log[j].task
  }

  lemma TwiceMeansLoggedBefore(log: seq<Firing>)
    ensures NoTaskTwice(log) <==> forall k :: 0 <= k < |log| ==> !Logged(log[..k], log[k].task)
  {
    if NoTaskTwice(log) {
      forall k | 0 <= k < |log| ensures !Logged(log[..k], log[k].task) {
        assert forall j :: 0 <= j < k ==> log[..k][j].task == log[j].task;
      }
    } else {
      var i, j :| 0 <= i < j < |log| && log[i].task == log[j].task;
      assert log[..j][i].task == log[j].task;
      assert Logged(log[..j], log[j].task);
    }
  }

  /** Exactly when a task is submitted twice: some submission is made while its task is already out of
      the backlog, or is about to be marked by another handler, or has a mark that failed. All three
      can be seen just before the submission; the code looks at the first one only, and not there. */
  lemma TwiceIffNotClear(s: State, acts: seq<Step>, z: State)
    requires Start(s) && Runs(s, acts, z)
    ensures NoTaskTwice(z.log) <==> forall k :: 0 <= k < |z.log| ==> Clear(z.log[k])
  {
    StartIsSafe(s);
    RunKeepsSafety(s, acts, z);
    TwiceMeansLoggedBefore(z.log);
    forall k | 0 <= k < |z.log| ensures Clear(z.log[k]) <==> !Logged(z.log[..k], z.log[k].task) {
      assert EntryIsFaithful(z.plan, z.log, k);
    }
  }

  /** The same before one submission: it is a second one exactly if its task is not clear. */
  lemma SecondIffNotClear(s: State, acts: seq<Step>, m: State, a: Step, z: State)
    requires Start(s) && Runs(s, acts, m) && Next(m, a, z) && Submitted(m, a) != {}
    ensures var p, t := m.handlers[a.h].project, m.handlers[a.h].phase.todo[0];
            z.log == m.log + [Snapshot(m, p, t)] && (Logged(m.log, t) <==> !Clear(Snapshot(m, p, t)))
  {
    StartIsSafe(s);
    RunKeepsSafety(s, acts, m);
    LogFrame(m, a, z);
    var p, t := m.handlers[a.h].project, m.handlers[a.h].phase.todo[0];
    assert HeldTask(m, p, t);
    EntryTells(m, p, t);
  }
}
