/** A run of the cascade that has come to rest: what is not deployed then waits, and was stuck from the
    start. */
module CascadeQuiescence {
  import opened CascadeModel
  import opened CascadeProgress

  /** Every member waits for a finalize, for a dependency outside the listing, or for another member. */
  ghost predicate Stuck(plan: Plan, status: map<TaskId, Status>, p: ProjectId, held: set<TaskId>)
    requires ValidPlan(plan) && status.Keys == plan.rows.Keys
  {
    held != {} &&
    forall t :: t in held ==>
      && Listed(plan, p, t)
      && status[t] == Backlog
      && (plan.rows[t].list == Finalized ==> exists d :: d in plan.rows[t].deps && (!Listed(plan, p, d) || d in held))
  }

  /** The set is stuck, and no request and no handler has any of its tasks. */
  ghost predicate Shut(s: State, p: ProjectId, held: set<TaskId>) {
    && WellFormed(s)
    && Stuck(s.plan, s.status, p, held)
    && (forall r :: r in s.requests ==> s.requests[r].task !in held)
    && (forall h :: h in s.handlers ==> HoldsNone(s.handlers[h].phase, held))
  }

  ghost predicate HoldsNone(ph: Phase, held: set<TaskId>) {
    forall t :: t in held ==> !Names(ph, t) && (ph.Marking? ==> ph.task != t)
  }

  lemma StuckIsNotReady(s: State, p: ProjectId, held: set<TaskId>, q: ProjectId, t: TaskId)
    requires Shut(s, p, held) && t in held
    ensures !Ready(s.plan, s.status, q, t)
  {
  }

  lemma HandlerHoldsNone(s: State, a: Step, z: State, p: ProjectId, held: set<TaskId>, h: nat)
    requires Shut(s, p, held) && Next(s, a, z) && h in z.handlers
    ensures HoldsNone(z.handlers[h].phase, held)
  {
    forall t | t in held
      ensures !Names(z.handlers[h].phase, t) && (z.handlers[h].phase.Marking? ==> z.handlers[h].phase.task != t)
    {
      if Names(z.handlers[h].phase, t) {
        NamesFrame(s, a, z, h, t);
        StuckIsNotReady(s, p, held, s.handlers[h].project, t);
      }
      if z.handlers[h].phase.Marking? {
        MarkingFrame(s, a, z, h);
        LogFrame(s, a, z);
      }
    }
  }

  lemma StepKeepsShut(s: State, a: Step, z: State, p: ProjectId, held: set<TaskId>)
    requires Shut(s, p, held) && Next(s, a, z)
    ensures Shut(z, p, held)
  {
    forall h | h in z.handlers ensures HoldsNone(z.handlers[h].phase, held) { HandlerHoldsNone(s, a, z, p, held, h); }
    forall r | r in z.requests ensures z.requests[r].task !in held {
      RequestFrame(s, a, z, r);
      LogFrame(s, a, z);
    }
    HeldStaysPut(s, a, z, p, held);
  }

  lemma HeldStaysPut(s: State, a: Step, z: State, p: ProjectId, held: set<TaskId>)
    requires Shut(s, p, held) && Next(s, a, z)
    ensures WellFormed(z) && z.plan == s.plan && Stuck(s.plan, z.status, p, held)
  {
    forall t | t in held ensures t in z.status && z.status[t] == Backlog {
      assert s.status[t] == Backlog;
      HeldIsNotWritten(s, a, p, held, t);
      StatusFrame(s, a, z, t);
    }
  }

  lemma HeldIsNotWritten(s: State, a: Step, p: ProjectId, held: set<TaskId>, t: TaskId)
    requires Shut(s, p, held) && Enabled(s, a) && t in held
    ensures t !in Touched(s, a)
  {
  }

  lemma {:induction false} RunKeepsShut(s: State, acts: seq<Step>, z: State, p: ProjectId, held: set<TaskId>)
    requires Shut(s, p, held) && Runs(s, acts, z)
    ensures Shut(z, p, held)
    decreases |acts|
  {
    if acts != [] {
      StepKeepsShut(s, acts[0], Apply(s, acts[0]), p, held);
      RunKeepsShut(Apply(s, acts[0]), acts[1..], z, p, held);
    }
  }

  /** A task never goes back to the backlog. */
  lemma {:induction false} BacklogIsOriginal(s: State, acts: seq<Step>, z: State, t: TaskId)
    requires Runs(s, acts, z) && WellFormed(z) && t in z.status && z.status[t] == Backlog
    ensures t in s.status && s.status[t] == Backlog
    decreases |acts|
  {
    if acts != [] {
      BacklogIsOriginal(Apply(s, acts[0]), acts[1..], z, t);
      StatusFrame(s, acts[0], Apply(s, acts[0]), t);
    }
  }

  // -------- coming to rest --------

  ghost predicate AllAttended(s: State, p: ProjectId) {
    forall t :: t in s.unattended ==> t !in s.plan.rows || s.plan.rows[t].project != p
  }

  lemma UnattendedShrinks(s: State, a: Step, z: State)
    requires Next(s, a, z) && Smooth(a)
    ensures z.unattended <= s.unattended && z.plan == s.plan
  {
  }

  lemma {:induction false} RunKeepsAttended(s: State, acts: seq<Step>, z: State, p: ProjectId)
    requires Runs(s, acts, z) && Undisturbed(acts) && AllAttended(s, p)
    ensures AllAttended(z, p)
    decreases |acts|
  {
    if acts != [] {
      var m := Apply(s, acts[0]);
      assert Smooth(acts[0]);
      UnattendedShrinks(s, acts[0], m);
      RunKeepsAttended(m, acts[1..], z, p);
    }
  }

  /** The run completes (or repeats the completion of) a request of project `p` in state `m`,
      nothing is disturbed from then on, and at the end no handler runs, no request is open, and no
      listed task of the project has failed or been cancelled. */
  ghost predicate Rested(s: State, before: seq<Step>, m: State, c: Step, n: State, after: seq<Step>, z: State,
                         p: ProjectId)
  {
    && Start(s) && Runs(s, before, m) && Next(m, c, n)
    && c.Complete? && ProjectOf(m, c.r) == p && p in s.auto
    && Runs(n, after, z) && WellFormed(z) && Undisturbed(after)
    && z.handlers == map[]
    && (forall r :: r in z.requests ==> z.requests[r].outcome != Open)
    && (forall t :: t in z.status && Listed(z.plan, p, t) ==> z.status[t] != Failed && z.status[t] != Cancelled)
  }

  lemma RestKeeps(s: State, before: seq<Step>, m: State, c: Step, n: State, after: seq<Step>, z: State, p: ProjectId)
    requires Rested(s, before, m, c, n, after, z, p)
    ensures Inv(z) && z.plan == s.plan && p in z.auto && AllAttended(z, p)
  {
    StartHasInv(s);
    RunKeeps(s, before, m);
    StepKeeps(m, c, n);
    RunKeeps(n, after, z);
    CompletionAttends(m, c, n, p);
    RunKeepsAttended(n, after, z, p);
  }

  lemma CompletionAttends(m: State, c: Step, n: State, p: ProjectId)
    requires Next(m, c, n) && c.Complete? && ProjectOf(m, c.r) == p && p in m.auto
    ensures AllAttended(n, p)
  {
  }

  lemma UnattendedIsNotReady(z: State, p: ProjectId, t: TaskId)
    requires Inv(z) && z.handlers == map[] && p in z.auto && AllAttended(z, p) && Listed(z.plan, p, t)
    ensures !Ready(z.plan, z.status, p, t)
  {
    assert !Awaited(z, p, t) && t !in z.unattended;
  }

  /** No handler runs, nothing of the project is unattended, and its listed tasks are deployed or waiting. */
  ghost predicate Resting(z: State, p: ProjectId) {
    Inv(z) && z.handlers == map[] && p in z.auto && AllAttended(z, p) && Settled(z, p)
  }

  ghost predicate Settled(z: State, p: ProjectId)
    requires WellFormed(z)
  {
    forall t :: t in z.status && Listed(z.plan, p, t) ==> z.status[t] == Deployed || z.status[t] == Backlog
  }

  ghost predicate AllDeployed(z: State, p: ProjectId)
    requires WellFormed(z)
  {
    forall t :: t in z.status && Listed(z.plan, p, t) ==> z.status[t] == Deployed
  }

  ghost function Undelivered(z: State, p: ProjectId): set<TaskId>
    requires WellFormed(z)
  {
    set t | t in z.status && Listed(z.plan, p, t) && z.status[t] != Deployed
  }

  /** At rest every listed task that is not deployed is in the backlog, and that backlog is stuck. */
  lemma RestingBacklogIsStuck(z: State, p: ProjectId)
    requires Resting(z, p)
    ensures Undelivered(z, p) != {} ==> Stuck(z.plan, z.status, p, Undelivered(z, p))
  {
    forall t | t in Undelivered(z, p)
      ensures z.status[t] == Backlog
      ensures z.plan.rows[t].list == Finalized ==>
                exists d :: d in z.plan.rows[t].deps && (!Listed(z.plan, p, d) || d in Undelivered(z, p))
    {
      UnattendedIsNotReady(z, p, t);
    }
  }

  lemma BacklogThroughout(s: State, before: seq<Step>, m: State, c: Step, n: State, after: seq<Step>, z: State,
                          t: TaskId)
    requires Runs(s, before, m) && Next(m, c, n) && Runs(n, after, z)
    requires WellFormed(z) && t in z.status && z.status[t] == Backlog
    ensures t in s.status && s.status[t] == Backlog
  {
    BacklogIsOriginal(n, after, z, t);
    StatusFrame(m, c, n, t);
    BacklogIsOriginal(s, before, m, t);
  }

  lemma UndeliveredWasStuck(s: State, before: seq<Step>, m: State, c: Step, n: State, after: seq<Step>, z: State,
                            p: ProjectId)
    requires Rested(s, before, m, c, n, after, z, p) && Settled(z, p)
    ensures z.plan == s.plan
    ensures Undelivered(z, p) != {} ==> Stuck(s.plan, s.status, p, Undelivered(z, p))
  {
    RestKeeps(s, before, m, c, n, after, z, p);
    RestingBacklogIsStuck(z, p);
    if Undelivered(z, p) != {} {
      forall t | t in Undelivered(z, p) ensures t in s.status && s.status[t] == Backlog {
        BacklogThroughout(s, before, m, c, n, after, z, t);
      }
      StuckBefore(s.plan, s.status, z.status, p, Undelivered(z, p));
    }
  }

  /** Whether a set is stuck depends on nothing but its being in the backlog. */
  lemma StuckBefore(plan: Plan, status: map<TaskId, Status>, later: map<TaskId, Status>, p: ProjectId,
                    held: set<TaskId>)
    requires ValidPlan(plan) && status.Keys == plan.rows.Keys && later.Keys == plan.rows.Keys
    requires Stuck(plan, later, p, held) && forall t :: t in held ==> t in status && status[t] == Backlog
    ensures Stuck(plan, status, p, held)
  {
  }

  lemma AllDeployedMeansNothingUndelivered(z: State, p: ProjectId)
    requires WellFormed(z)
    ensures AllDeployed(z, p) <==> Undelivered(z, p) == {}
  {
    forall t | t in z.status && Listed(z.plan, p, t) && z.status[t] != Deployed ensures Undelivered(z, p) != {} {
      assert t in Undelivered(z, p);
    }
    forall t | t in Undelivered(z, p) ensures t in z.status && Listed(z.plan, p, t) && z.status[t] != Deployed {}
  }

  lemma StuckStaysUndelivered(s: State, before: seq<Step>, m: State, c: Step, n: State, after: seq<Step>, z: State,
                              p: ProjectId, held: set<TaskId>)
    requires Rested(s, before, m, c, n, after, z, p) && Stuck(s.plan, s.status, p, held)
    ensures Undelivered(z, p) != {}
  {
    StuckFromTheStart(s, p, held);
    RunKeepsShut(s, before, m, p, held);
    StepKeepsShut(m, c, n, p, held);
    RunKeepsShut(n, after, z, p, held);
    ShutIsUndelivered(z, p, held);
  }

  lemma StuckFromTheStart(s: State, p: ProjectId, held: set<TaskId>)
    requires Start(s) && Stuck(s.plan, s.status, p, held)
    ensures Shut(s, p, held)
  {
  }

  lemma ShutIsUndelivered(z: State, p: ProjectId, held: set<TaskId>)
    requires Shut(z, p, held)
    ensures Undelivered(z, p) != {}
  {
    var t :| t in held;
    assert t in Undelivered(z, p);
  }
}
