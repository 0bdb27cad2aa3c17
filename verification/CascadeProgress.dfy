/** Progress of the task cascade over every interleaving: ready work is never forgotten. */
module CascadeProgress {
  import opened CascadeModel

  ghost predicate Covers(ph: Phase, t: TaskId) {
    match ph
    case Woken => true
    case Checking(unchecked, kept) => t in unchecked || t in kept
    case Dispatching(todo) => t in todo
    case Marking(u, _, todo) => t == u || t in todo
  }

  /** Some handler of the project has yet to read the ready set, or holds the task, or is marking it. */
  ghost predicate Awaited(s: State, p: ProjectId, t: TaskId) {
    exists h :: h in s.handlers && s.handlers[h].project == p && Covers(s.handlers[h].phase, t)
  }

  ghost predicate Attended(s: State)
    requires WellFormed(s)
  {
    forall p, t :: p in s.auto && Ready(s.plan, s.status, p, t) ==> t in s.unattended || Awaited(s, p, t)
  }

  ghost predicate Inv(s: State) {
    WellFormed(s) && Attended(s)
  }

  /** Moving a task out of the backlog to anything but deployed makes no task ready. */
  lemma ReadyShrinks(plan: Plan, status: map<TaskId, Status>, u: TaskId, x: Status, p: ProjectId, t: TaskId)
    requires ValidPlan(plan) && status.Keys == plan.rows.Keys && u in status
    requires x != Backlog && x != Deployed
    requires Ready(plan, status[u := x], p, t)
    ensures Ready(plan, status, p, t) && t != u
  {
    assert forall d :: d in plan.rows[t].deps ==> status[u := x][d] == Deployed;
  }

  /** Deploying a task makes tasks ready in its own project only. */
  lemma ReadyGrowsInProject(plan: Plan, status: map<TaskId, Status>, u: TaskId, p: ProjectId, t: TaskId)
    requires ValidPlan(plan) && status.Keys == plan.rows.Keys && u in status
    requires plan.rows[u].project != p
    requires Ready(plan, status[u := Deployed], p, t)
    ensures Ready(plan, status, p, t)
  {
    assert forall d :: d in plan.rows[t].deps ==> Listed(plan, p, d) && d != u;
  }

  /** A step that wakes no handler, moves none of their tasks away and only shrinks the ready set. */
  lemma ShrinkKeeps(s: State, z: State)
    requires Inv(s) && WellFormed(z) && z.plan == s.plan && z.auto == s.auto && s.unattended <= z.unattended
    requires forall p, t :: p in s.auto && Ready(z.plan, z.status, p, t) ==> Ready(s.plan, s.status, p, t)
    requires forall p, t :: p in s.auto && Ready(z.plan, z.status, p, t) && Awaited(s, p, t) ==>
               t in z.unattended || Awaited(z, p, t)
    ensures Inv(z)
  {
    forall p, t | p in z.auto && Ready(z.plan, z.status, p, t)
      ensures t in z.unattended || Awaited(z, p, t)
    {
      assert t in s.unattended || Awaited(s, p, t);
    }
  }

  lemma WriteShrinks(s: State, u: TaskId, x: Status, z: State)
    requires WellFormed(s) && u in s.status && x != Backlog && x != Deployed && WellFormed(z)
    requires z.plan == s.plan && z.status == s.status[u := x]
    ensures forall p, t :: Ready(z.plan, z.status, p, t) ==> Ready(s.plan, s.status, p, t) && t != u
  {
    forall p, t | Ready(z.plan, z.status, p, t) ensures Ready(s.plan, s.status, p, t) && t != u {
      ReadyShrinks(s.plan, s.status, u, x, p, t);
    }
  }

  lemma NoteKeeps(s: State, r: RequestId, stage: Status)
    requires Inv(s) && r in s.requests && IsInFlight(stage)
    ensures Inv(Note(s, r, stage))
  {
    WriteShrinks(s, s.requests[r].task, stage, Note(s, r, stage));
    ShrinkKeeps(s, Note(s, r, stage));
  }

  lemma StopKeeps(s: State, r: RequestId, final: Status)
    requires Inv(s) && r in s.requests && (final == Failed || final == Cancelled)
    ensures Inv(Stop(s, r, final))
  {
    WriteShrinks(s, s.requests[r].task, final, Stop(s, r, final));
    ShrinkKeeps(s, Stop(s, r, final));
  }

  lemma ResumeKeeps(s: State, r: RequestId)
    requires Inv(s) && r in s.requests
    ensures Inv(Resume(s, r))
  {
    WriteShrinks(s, s.requests[r].task, Dispatched, Resume(s, r));
    ShrinkKeeps(s, Resume(s, r));
  }

  lemma DeployKeeps(s: State, r: RequestId, h: nat)
    requires Inv(s) && r in s.requests && h !in s.handlers
    ensures Inv(Deploy(s, r, h))
  {
    var z := Deploy(s, r, h);
    var u := s.requests[r].task;
    var p0 := ProjectOf(s, r);
    forall p, t | p in z.auto && Ready(z.plan, z.status, p, t)
      ensures t in z.unattended || Awaited(z, p, t)
    {
      if p == p0 {
        assert z.handlers[h] == Handler(p0, Woken);
      } else {
        ReadyGrowsInProject(s.plan, s.status, u, p, t);
        assert t in s.unattended || Awaited(s, p, t);
        if Awaited(s, p, t) {
          var g :| g in s.handlers && s.handlers[g].project == p && Covers(s.handlers[g].phase, t);
          assert g in z.handlers && z.handlers[g] == s.handlers[g];
        }
      }
    }
  }

  /** Replacing one handler keeps every other handler's coverage. */
  lemma OthersStillCover(s: State, z: State, h: nat, p: ProjectId, t: TaskId)
    requires Awaited(s, p, t)
    requires forall g :: g in s.handlers && g != h ==> g in z.handlers && z.handlers[g] == s.handlers[g]
    requires h in s.handlers && s.handlers[h].project == p && Covers(s.handlers[h].phase, t) ==>
               h in z.handlers && z.handlers[h].project == p && Covers(z.handlers[h].phase, t)
    ensures Awaited(z, p, t)
  {
    var g :| g in s.handlers && s.handlers[g].project == p && Covers(s.handlers[g].phase, t);
    assert g in z.handlers && z.handlers[g].project == p && Covers(z.handlers[g].phase, t);
  }

  /** A move of one handler that loses no task it covers. */
  lemma MoveKeeps(s: State, z: State, h: nat)
    requires Inv(s) && WellFormed(z) && h in s.handlers && h in z.handlers && z.plan == s.plan && z.auto == s.auto
    requires z.handlers == s.handlers[h := z.handlers[h]] && z.handlers[h].project == s.handlers[h].project
    requires s.unattended <= z.unattended
    requires forall p, t :: p in s.auto && Ready(z.plan, z.status, p, t) ==> Ready(s.plan, s.status, p, t)
    requires forall t :: Ready(z.plan, z.status, s.handlers[h].project, t) && Covers(s.handlers[h].phase, t) ==>
                           t in z.unattended || Covers(z.handlers[h].phase, t)
    ensures Inv(z)
  {
    forall p, t | p in s.auto && Ready(z.plan, z.status, p, t) && Awaited(s, p, t)
      ensures t in z.unattended || Awaited(z, p, t)
    {
      if t !in z.unattended { OthersStillCover(s, z, h, p, t); }
    }
    ShrinkKeeps(s, z);
  }

  lemma ReadKeeps(s: State, h: nat)
    requires Inv(s) && h in s.handlers
    ensures Inv(ReadReady(s, h))
  {
    var p := s.handlers[h].project;
    forall t | Ready(s.plan, s.status, p, t) ensures t in ReadyList(s.plan, s.status, p) {
      assert t in s.plan.order;
    }
    MoveKeeps(s, ReadReady(s, h), h);
  }

  lemma CheckKeeps(s: State, h: nat)
    requires Inv(s) && h in s.handlers && s.handlers[h].phase.Checking?
    ensures Inv(Recheck(s, h))
  {
    var Checking(unchecked, kept) := s.handlers[h].phase;
    assert unchecked != [] ==> forall t :: t in unchecked ==> t == unchecked[0] || t in unchecked[1..];
    MoveKeeps(s, Recheck(s, h), h);
  }

  lemma DropKeeps(s: State, h: nat)
    requires Inv(s) && h in s.handlers
    ensures Inv(Drop(s, h))
  {
    var z := Drop(s, h);
    forall p, t | p in s.auto && Ready(z.plan, z.status, p, t) && Awaited(s, p, t)
      ensures t in z.unattended || Awaited(z, p, t)
    {
      if t !in z.unattended {
        assert s.handlers[h].project != p;
        OthersStillCover(s, z, h, p, t);
      }
    }
    ShrinkKeeps(s, z);
  }

  lemma FireKeeps(s: State, h: nat, r: RequestId, accepted: bool)
    requires Inv(s) && Enabled(s, Fire(h, r, accepted))
    ensures Inv(Submit(s, h, r, accepted))
  {
    var z := Submit(s, h, r, accepted);
    var todo := s.handlers[h].phase.todo;
    if todo == [] {
      forall p, t | p in s.auto && Ready(z.plan, z.status, p, t) && Awaited(s, p, t)
        ensures t in z.unattended || Awaited(z, p, t)
      {
        OthersStillCover(s, z, h, p, t);
      }
      ShrinkKeeps(s, z);
    } else {
      assert forall t :: t in todo ==> t == todo[0] || t in todo[1..];
      MoveKeeps(s, z, h);
    }
  }

  lemma MarkKeeps(s: State, h: nat, written: bool)
    requires Inv(s) && Enabled(s, Mark(h, written))
    ensures Inv(MarkDispatched(s, h, written))
  {
    var z := MarkDispatched(s, h, written);
    if written { WriteShrinks(s, s.handlers[h].phase.task, Dispatched, z); }
    MoveKeeps(s, z, h);
  }

  lemma RequestStepKeeps(s: State, a: Step, z: State)
    requires Inv(s) && Next(s, a, z) && RequestStep(a)
    ensures Inv(z)
  {
    match a
    case Report(r, stage) => NoteKeeps(s, r, stage);
    case Complete(r, h) => DeployKeeps(s, r, h);
    case End(r, final) => StopKeeps(s, r, final);
    case Reopen(r) => ResumeKeeps(s, r);
  }

  lemma StepKeeps(s: State, a: Step, z: State)
    requires Inv(s) && Next(s, a, z)
    ensures Inv(z)
  {
    match a
    case Report(_, _) => RequestStepKeeps(s, a, z);
    case Complete(_, _) => RequestStepKeeps(s, a, z);
    case End(_, _) => RequestStepKeeps(s, a, z);
    case Reopen(_) => RequestStepKeeps(s, a, z);
    case Read(h) => ReadKeeps(s, h);
    case Check(h) => CheckKeeps(s, h);
    case Abandon(h) => DropKeeps(s, h);
    case Fire(h, r, accepted) => FireKeeps(s, h, r, accepted);
    case Mark(h, written) => MarkKeeps(s, h, written);
  }

  lemma {:induction false} RunKeeps(s: State, acts: seq<Step>, z: State)
    requires Inv(s) && Runs(s, acts, z)
    ensures Inv(z) && z.plan == s.plan && z.auto == s.auto
    decreases |acts|
  {
    if acts != [] {
      StepKeeps(s, acts[0], Apply(s, acts[0]));
      RunKeeps(Apply(s, acts[0]), acts[1..], z);
    }
  }

  lemma StartHasInv(s: State)
    requires Start(s)
    ensures Inv(s)
  {
  }

  /** No ready work is forgotten: in every reachable state of a project with auto-dispatch on, a
      ready task is held, being marked, or about to be read by a handler, unless since the last
      completion in the project it was refused, its mark failed, or a handler was abandoned (or
      nothing has completed there yet). */
  lemma ReadyWorkIsNeverForgotten(s: State, acts: seq<Step>, z: State, p: ProjectId, t: TaskId)
    requires Start(s) && Runs(s, acts, z)
    requires p in z.auto && WellFormed(z) && Ready(z.plan, z.status, p, t)
    ensures t in z.unattended || Awaited(z, p, t)
  {
    StartHasInv(s);
    RunKeeps(s, acts, z);
  }
}
