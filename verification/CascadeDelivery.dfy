/** What a run of the cascade that has come to rest has delivered, exactly. */
module CascadeDelivery {
  import opened Common
  import opened CascadeModel
  import opened CascadeQuiescence

  // -------- marks and the completions after them --------

  predicate CompletesTask(s: State, a: Step, t: TaskId)
    requires WellFormed(s) && Enabled(s, a)
  {
    a.Complete? && s.requests[a.r].task == t
  }

  /** Some step of the run completes a request of the task. */
  ghost predicate CompletesLater(s: State, acts: seq<Step>, t: TaskId)
    requires WellFormed(s)
    decreases |acts|
  {
    && acts != [] && Enabled(s, acts[0])
    && (CompletesTask(s, acts[0], t) || CompletesLater(Apply(s, acts[0]), acts[1..], t))
  }

  predicate MarksListed(s: State, a: Step, p: ProjectId)
    requires WellFormed(s) && Enabled(s, a)
  {
    a.Mark? && a.written && Listed(s.plan, p, s.handlers[a.h].phase.task)
  }

  /** Whenever a listed task is marked, a request of it completes later in the run. */
  ghost predicate MarksAreFollowed(s: State, acts: seq<Step>, p: ProjectId)
    requires WellFormed(s)
    decreases |acts|
  {
    acts != [] ==>
      && Enabled(s, acts[0])
      && (MarksListed(s, acts[0], p) ==> CompletesLater(Apply(s, acts[0]), acts[1..], s.handlers[acts[0].h].phase.task))
      && MarksAreFollowed(Apply(s, acts[0]), acts[1..], p)
  }

  /** The task is not in flight, or something is still to come for it. */
  ghost predicate Expected(s: State, acts: seq<Step>, t: TaskId)
    requires WellFormed(s) && t in s.status
  {
    IsInFlight(s.status[t]) ==> HasOpenRequest(s, t) || CompletesLater(s, acts, t)
  }

  lemma OpenRequestStays(s: State, a: Step, z: State, t: TaskId)
    requires Next(s, a, z) && HasOpenRequest(s, t) && t !in Touched(s, a)
    ensures HasOpenRequest(z, t)
  {
    var r :| r in s.requests && s.requests[r].task == t && s.requests[r].outcome == Open;
    RequestFrame(s, a, z, r);
    OutcomeFrame(s, a, z, r);
  }

  /** Who writes that a task is in flight: one of its requests, which is open then, or a mark. */
  lemma WritesInFlight(s: State, a: Step, z: State, t: TaskId)
    requires Next(s, a, z) && t in Touched(s, a) && t in z.status && IsInFlight(z.status[t])
    ensures (a.Mark? && a.written && s.handlers[a.h].phase.task == t) || HasOpenRequest(z, t)
  {
    if !a.Mark? {
      RequestWritesInFlight(s, a, z, t);
      RequestsFrame(s, a, z);
      assert z.requests[a.r].task == t && z.requests[a.r].outcome == Open;
    }
  }

  lemma RequestWritesInFlight(s: State, a: Step, z: State, t: TaskId)
    requires Next(s, a, z) && !a.Mark? && t in Touched(s, a) && t in z.status && IsInFlight(z.status[t])
    ensures (a.Report? || a.Reopen?) && s.requests[a.r].task == t
  {
  }

  lemma StillExpected(s: State, acts: seq<Step>, z: State, p: ProjectId, t: TaskId)
    requires acts != [] && Next(s, acts[0], z) && WellFormed(z) && MarksAreFollowed(s, acts, p)
    requires t in s.status && Listed(s.plan, p, t) && Expected(s, acts, t)
    ensures t in z.status && Expected(z, acts[1..], t)
  {
    var a := acts[0];
    if IsInFlight(z.status[t]) {
      StatusFrame(s, a, z, t);
      if t in Touched(s, a) {
        WritesInFlight(s, a, z, t);
      } else if HasOpenRequest(s, t) {
        OpenRequestStays(s, a, z, t);
      }
    }
  }

  /** With every request closed in the end, a listed task whose marks are followed is not in flight. */
  lemma {:induction false} NothingInFlight(s: State, acts: seq<Step>, z: State, p: ProjectId, t: TaskId)
    requires Runs(s, acts, z) && WellFormed(z) && MarksAreFollowed(s, acts, p)
    requires t in s.status && Listed(s.plan, p, t) && Expected(s, acts, t)
    requires forall r :: r in z.requests ==> z.requests[r].outcome != Open
    ensures t in z.status && !IsInFlight(z.status[t])
    decreases |acts|
  {
    if acts != [] {
      var m := Apply(s, acts[0]);
      StillExpected(s, acts, m, p, t);
      NothingInFlight(m, acts[1..], z, p, t);
    }
  }

  lemma StaysUndeployed(s: State, a: Step, z: State, t: TaskId)
    requires Next(s, a, z) && t in s.status && s.status[t] != Deployed && !CompletesTask(s, a, t)
    ensures t in z.status && z.status[t] != Deployed
  {
    StatusFrame(s, a, z, t);
    if t in Touched(s, a) && z.status[t] == Deployed { DeployingFrame(s, a, z, t); }
  }

  /** Without a later completion a task that is not deployed stays so. */
  lemma {:induction false} NeverDeployed(s: State, acts: seq<Step>, z: State, t: TaskId)
    requires Runs(s, acts, z) && t in s.status && s.status[t] != Deployed && !CompletesLater(s, acts, t)
    ensures t in z.status && z.status[t] != Deployed
    decreases |acts|
  {
    if acts != [] {
      var m := Apply(s, acts[0]);
      StaysUndeployed(s, acts[0], m, t);
      NeverDeployed(m, acts[1..], z, t);
    }
  }

  /** If the listed tasks are deployed or waiting in the end, every mark of one was followed. */
  lemma {:induction false} SettledMarksAreFollowed(s: State, acts: seq<Step>, z: State, p: ProjectId)
    requires Runs(s, acts, z) && WellFormed(z) && z.plan == s.plan && Settled(z, p)
    ensures MarksAreFollowed(s, acts, p)
    decreases |acts|
  {
    if acts != [] {
      var m := Apply(s, acts[0]);
      if MarksListed(s, acts[0], p) {
        var t := s.handlers[acts[0].h].phase.task;
        assert m.status[t] == Dispatched;
        if !CompletesLater(m, acts[1..], t) { LostInFlight(m, acts[1..], z, p, t); }
      }
      SettledMarksAreFollowed(m, acts[1..], z, p);
    }
  }

  lemma LostInFlight(s: State, acts: seq<Step>, z: State, p: ProjectId, t: TaskId)
    requires Runs(s, acts, z) && WellFormed(z) && t in s.status && s.status[t] == Dispatched
    requires !CompletesLater(s, acts, t)
    requires Listed(z.plan, p, t)
    ensures !Settled(z, p)
  {
    NeverDeployed(s, acts, z, t);
    if z.status[t] == Backlog { BacklogIsOriginal(s, acts, z, t); }
  }

  // -------- delivery --------

  lemma StepFirst(s: State, a: Step, m: State, rest: seq<Step>, z: State)
    requires Next(s, a, m) && Runs(m, rest, z)
    ensures Runs(s, [a] + rest, z)
  {
    var acts := [a] + rest;
    assert acts[0] == a && acts[1..] == rest;
  }

  lemma {:induction false} RunsOn(s: State, acts: seq<Step>, m: State, more: seq<Step>, z: State)
    requires Runs(s, acts, m) && Runs(m, more, z)
    ensures Runs(s, acts + more, z)
    decreases |acts|
  {
    if acts == [] {
      assert acts + more == more;
    } else {
      var next := Apply(s, acts[0]);
      RunsOn(next, acts[1..], m, more, z);
      StepFirst(s, acts[0], next, acts[1..] + more, z);
      HeadFirst(acts, more);
    }
  }

  lemma RestedIsARun(s: State, before: seq<Step>, m: State, c: Step, n: State, after: seq<Step>, z: State, p: ProjectId)
    requires Rested(s, before, m, c, n, after, z, p)
    ensures Runs(s, before + ([c] + after), z)
  {
    StepFirst(m, c, n, after, z);
    RunsOn(s, before, m, [c] + after, z);
  }

  lemma FollowedMarksSettle(s: State, acts: seq<Step>, z: State, p: ProjectId)
    requires Start(s) && Runs(s, acts, z) && WellFormed(z) && z.plan == s.plan && MarksAreFollowed(s, acts, p)
    requires forall r :: r in z.requests ==> z.requests[r].outcome != Open
    requires forall t :: t in z.status && Listed(z.plan, p, t) ==> z.status[t] != Failed && z.status[t] != Cancelled
    ensures Settled(z, p)
  {
    forall t | t in z.status && Listed(z.plan, p, t) ensures z.status[t] == Deployed || z.status[t] == Backlog {
      NothingInFlight(s, acts, z, p, t);
    }
  }

  /** The delivery theorem: for every run that has come to rest, all listed tasks are deployed if and only if
      every mark of a listed task was followed by a completion of a request of it, and the start had no stuck
      set. Lost marks, drafts, dangling or foreign dependencies, and cycles are the only ways to stall. */
  lemma DeliveredIffMarksFollowedAndNothingStuck(s: State, before: seq<Step>, m: State, c: Step, n: State,
                                                 after: seq<Step>, z: State, p: ProjectId)
    requires Rested(s, before, m, c, n, after, z, p)
    ensures AllDeployed(z, p) <==>
            MarksAreFollowed(s, before + ([c] + after), p) && !exists held :: Stuck(s.plan, s.status, p, held)
  {
    var acts := before + ([c] + after);
    RestedIsARun(s, before, m, c, n, after, z, p);
    RestKeeps(s, before, m, c, n, after, z, p);
    AllDeployedMeansNothingUndelivered(z, p);
    if AllDeployed(z, p) { SettledMarksAreFollowed(s, acts, z, p); }
    if held :| Stuck(s.plan, s.status, p, held) { StuckStaysUndelivered(s, before, m, c, n, after, z, p, held); }
    if MarksAreFollowed(s, acts, p) {
      FollowedMarksSettle(s, acts, z, p);
      UndeliveredWasStuck(s, before, m, c, n, after, z, p);
    }
  }

  // -------- work in flight is tracked --------

  /** A task in flight has an open request that will report its end, and so has a task being marked. */
  ghost predicate Tracked(s: State)
    requires WellFormed(s)
  {
    && (forall t :: t in s.status && IsInFlight(s.status[t]) ==> HasOpenRequest(s, t))
    && (forall h :: h in s.handlers && s.handlers[h].phase.Marking? ==>
          OpenFor(s, s.handlers[h].phase.request, s.handlers[h].phase.task))
  }

  ghost predicate OpenFor(s: State, r: RequestId, t: TaskId) {
    r in s.requests && s.requests[r] == Request(t, Open)
  }

  lemma OpenStays(s: State, a: Step, z: State, r: RequestId, t: TaskId)
    requires Next(s, a, z) && OpenFor(s, r, t) && ((a.Complete? || a.End?) ==> a.r != r)
    ensures OpenFor(z, r, t)
  {
    RequestFrame(s, a, z, r);
    OutcomeFrame(s, a, z, r);
  }

  lemma FlightStep(s: State, a: Step, z: State, t: TaskId)
    requires WellFormed(s) && Tracked(s) && Next(s, a, z) && t in z.status && IsInFlight(z.status[t])
    ensures HasOpenRequest(z, t)
  {
    StatusFrame(s, a, z, t);
    if t in Touched(s, a) {
      WrittenInFlight(s, a, z, t);
    } else {
      var r :| r in s.requests && s.requests[r].task == t && s.requests[r].outcome == Open;
      OpenStays(s, a, z, r, t);
    }
  }

  /** Only a report and a mark write that a task is in flight, and both know an open request. */
  lemma WrittenInFlight(s: State, a: Step, z: State, t: TaskId)
    requires WellFormed(s) && Tracked(s) && Next(s, a, z) && t in Touched(s, a) && t in z.status
    requires IsInFlight(z.status[t])
    ensures HasOpenRequest(z, t)
  {
    NotAnEnd(s, a, z, t);
    var r := if a.Mark? then s.handlers[a.h].phase.request else a.r;
    assert OpenFor(s, r, t);
    OpenStays(s, a, z, r, t);
  }

  lemma NotAnEnd(s: State, a: Step, z: State, t: TaskId)
    requires Next(s, a, z) && t in Touched(s, a) && t in z.status && IsInFlight(z.status[t])
    ensures a.Report? || a.Reopen? || a.Mark?
  {
  }

  lemma MarkingTracked(s: State, a: Step, z: State, h: nat)
    requires WellFormed(s) && Tracked(s) && Next(s, a, z) && h in z.handlers && z.handlers[h].phase.Marking?
    requires (a.Complete? || a.End?) ==> !Unmarked(s, a.r)
    ensures OpenFor(z, z.handlers[h].phase.request, z.handlers[h].phase.task)
  {
    MarkingFrame(s, a, z, h);
    var r, t := z.handlers[h].phase.request, z.handlers[h].phase.task;
    if s.handlers[h] == z.handlers[h] {
      assert OpenFor(s, r, t);
      OpenStays(s, a, z, r, t);
    } else {
      RequestsFrame(s, a, z);
      LogFrame(s, a, z);
    }
  }

  lemma StepKeepsTracked(s: State, a: Step, z: State)
    requires WellFormed(s) && Tracked(s) && Next(s, a, z) && ((a.Complete? || a.End?) ==> !Unmarked(s, a.r))
    ensures WellFormed(z) && Tracked(z)
  {
    forall t | t in z.status && IsInFlight(z.status[t]) ensures HasOpenRequest(z, t) { FlightStep(s, a, z, t); }
    forall h | h in z.handlers && z.handlers[h].phase.Marking?
      ensures OpenFor(z, z.handlers[h].phase.request, z.handlers[h].phase.task)
    {
      MarkingTracked(s, a, z, h);
    }
  }

  lemma {:induction false} RunKeepsTracked(s: State, acts: seq<Step>, z: State)
    requires WellFormed(s) && Tracked(s) && Runs(s, acts, z) && EndsAreMarked(s, acts)
    ensures WellFormed(z) && Tracked(z)
    decreases |acts|
  {
    if acts != [] {
      StepKeepsTracked(s, acts[0], Apply(s, acts[0]));
      RunKeepsTracked(Apply(s, acts[0]), acts[1..], z);
    }
  }

  /** The run comes to rest, and all along no request ends before its task is marked. */
  ghost predicate CameToRest(s: State, before: seq<Step>, m: State, c: Step, n: State, after: seq<Step>, z: State,
                             p: ProjectId)
  {
    && Rested(s, before, m, c, n, after, z, p)
    && EndsAreMarked(s, before) && !Unmarked(m, c.r) && EndsAreMarked(n, after)
  }

  /** When no request ends before its task is marked, every mark is followed. */
  lemma MarkedEndsAreFollowed(s: State, before: seq<Step>, m: State, c: Step, n: State, after: seq<Step>, z: State,
                              p: ProjectId)
    requires CameToRest(s, before, m, c, n, after, z, p)
    ensures MarksAreFollowed(s, before + ([c] + after), p)
  {
    RestedIsARun(s, before, m, c, n, after, z, p);
    RestKeeps(s, before, m, c, n, after, z, p);
    MarkedEndsSettle(s, before, m, c, n, after, z, p);
    SettledMarksAreFollowed(s, before + ([c] + after), z, p);
  }

  lemma MarkedEndsSettle(s: State, before: seq<Step>, m: State, c: Step, n: State, after: seq<Step>, z: State,
                         p: ProjectId)
    requires CameToRest(s, before, m, c, n, after, z, p)
    ensures Settled(z, p)
  {
    MarkedRunKeepsTracked(s, before, m, c, n, after, z);
    TrackedSettles(z, p);
  }

  lemma TrackedSettles(z: State, p: ProjectId)
    requires WellFormed(z) && Tracked(z) && forall r :: r in z.requests ==> z.requests[r].outcome != Open
    requires forall t :: t in z.status && Listed(z.plan, p, t) ==> z.status[t] != Failed && z.status[t] != Cancelled
    ensures Settled(z, p)
  {
    forall t | t in z.status && Listed(z.plan, p, t) ensures z.status[t] == Deployed || z.status[t] == Backlog {
      assert !HasOpenRequest(z, t);
    }
  }

  lemma MarkedRunKeepsTracked(s: State, before: seq<Step>, m: State, c: Step, n: State, after: seq<Step>, z: State)
    requires Start(s) && Runs(s, before, m) && Next(m, c, n) && Runs(n, after, z)
    requires EndsAreMarked(s, before) && c.Complete? && !Unmarked(m, c.r) && EndsAreMarked(n, after)
    ensures WellFormed(z) && Tracked(z)
  {
    RunKeepsTracked(s, before, m);
    StepKeepsTracked(m, c, n);
    RunKeepsTracked(n, after, z);
  }

  /** So then drafts, dangling or foreign dependencies, and cycles are the only ways to stall. */
  lemma AllDeployedIffNothingWasStuck(s: State, before: seq<Step>, m: State, c: Step, n: State, after: seq<Step>,
                                      z: State, p: ProjectId)
    requires CameToRest(s, before, m, c, n, after, z, p)
    ensures AllDeployed(z, p) <==> !exists held :: Stuck(s.plan, s.status, p, held)
  {
    DeliveredIffMarksFollowedAndNothingStuck(s, before, m, c, n, after, z, p);
    MarkedEndsAreFollowed(s, before, m, c, n, after, z, p);
  }

  // -------- listings without a cycle --------

  /** The dependency graph of the listing: everything finalized, every dependency listed, and a
      rank that falls along every dependency (the graph has no cycle). */
  ghost predicate AcyclicFinalized(plan: Plan, p: ProjectId, rank: TaskId -> nat)
    requires ValidPlan(plan)
  {
    forall t :: t in plan.rows && Listed(plan, p, t) ==>
      plan.rows[t].list == Finalized && forall d :: d in plan.rows[t].deps ==> Listed(plan, p, d) && rank(d) < rank(t)
  }

  lemma {:induction false} AcyclicHasNoStuckSet(plan: Plan, status: map<TaskId, Status>, p: ProjectId,
                                                rank: TaskId -> nat,
                               held: set<TaskId>, t: TaskId)
    requires ValidPlan(plan) && status.Keys == plan.rows.Keys && AcyclicFinalized(plan, p, rank)
    requires t in held
    ensures !Stuck(plan, status, p, held)
    decreases rank(t)
  {
    if Stuck(plan, status, p, held) {
      var d :| d in plan.rows[t].deps && (!Listed(plan, p, d) || d in held);
      AcyclicHasNoStuckSet(plan, status, p, rank, held, d);
    }
  }

  lemma AcyclicIsNeverStuck(plan: Plan, status: map<TaskId, Status>, p: ProjectId, rank: TaskId -> nat)
    requires ValidPlan(plan) && status.Keys == plan.rows.Keys && AcyclicFinalized(plan, p, rank)
    ensures !exists held :: Stuck(plan, status, p, held)
  {
    forall held ensures !Stuck(plan, status, p, held) {
      if t :| t in held { AcyclicHasNoStuckSet(plan, status, p, rank, held, t); }
    }
  }

  /** An acyclic finalized listing is deployed in full by a run that comes to rest exactly when the run's
      marks are followed, and so by every run in which no request ends before its task is marked. */
  lemma AcyclicListingIsDeployed(s: State, before: seq<Step>, m: State, c: Step, n: State, after: seq<Step>, z: State,
                                 p: ProjectId, rank: TaskId -> nat)
    requires Rested(s, before, m, c, n, after, z, p) && AcyclicFinalized(s.plan, p, rank)
    ensures AllDeployed(z, p) <==> MarksAreFollowed(s, before + ([c] + after), p)
    ensures CameToRest(s, before, m, c, n, after, z, p) ==> AllDeployed(z, p)
  {
    AcyclicIsNeverStuck(s.plan, s.status, p, rank);
    DeliveredIffMarksFollowedAndNothingStuck(s, before, m, c, n, after, z, p);
    if CameToRest(s, before, m, c, n, after, z, p) { MarkedEndsAreFollowed(s, before, m, c, n, after, z, p); }
  }
}
