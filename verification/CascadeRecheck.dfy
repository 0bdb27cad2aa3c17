/** What the second look at each task is for: a task that has left the backlog before a handler has looked at it
    again is not submitted any more. */
module CascadeRecheck {
  import opened CascadeModel

  /** The handler has looked at the task a second time and keeps it. */
  predicate Kept(ph: Phase, t: TaskId) {
    match ph
    case Woken => false
    case Checking(_, kept) => t in kept
    case Dispatching(todo) => t in todo
    case Marking(_, _, todo) => t in todo
  }

  ghost predicate KeptNowhere(s: State, t: TaskId) {
    forall h :: h in s.handlers ==> !Kept(s.handlers[h].phase, t)
  }

  /** A second look keeps the task, in its order, exactly if it is still in the backlog and finalized. */
  lemma SecondLook(s: State, h: nat, z: State)
    requires Next(s, Check(h), z) && s.handlers[h].phase.unchecked != []
    ensures var Checking(unchecked, kept) := s.handlers[h].phase;
            var t := unchecked[0];
            h in z.handlers && z.handlers[h].phase ==
              Checking(unchecked[1..],
                       if t in s.plan.rows && s.status[t] == Backlog && s.plan.rows[t].list == Finalized
                       then kept + [t] else kept)
  {
  }

  lemma KeptFrame(s: State, a: Step, z: State, h: nat, t: TaskId)
    requires Next(s, a, z) && h in z.handlers && Kept(z.handlers[h].phase, t)
    ensures (h in s.handlers && Kept(s.handlers[h].phase, t)) || (t in s.status && s.status[t] == Backlog)
  {
    HandlersFrame(s, a, z);
    if a.Check? && a.h == h && s.handlers[h].phase.unchecked != [] { SecondLook(s, h, z); }
  }

  lemma GoneStep(s: State, a: Step, z: State, t: TaskId)
    requires Next(s, a, z) && t in s.status && s.status[t] != Backlog && KeptNowhere(s, t)
    ensures t in z.status && z.status[t] != Backlog && KeptNowhere(z, t)
    ensures |s.log| <= |z.log| && z.log[..|s.log|] == s.log
    ensures forall k :: |s.log| <= k < |z.log| ==> z.log[k].task != t
  {
    StatusFrame(s, a, z, t);
    forall h | h in z.handlers ensures !Kept(z.handlers[h].phase, t) {
      if Kept(z.handlers[h].phase, t) { KeptFrame(s, a, z, h, t); }
    }
    LogFrame(s, a, z);
  }

  /** Over every run: once a task has left the backlog and no handler keeps it from a second look, no handler ever
      submits it again, however many of them have read it as ready. */
  lemma {:induction false} GoneIsNotSubmitted(s: State, acts: seq<Step>, z: State, t: TaskId)
    requires Runs(s, acts, z) && t in s.status && s.status[t] != Backlog && KeptNowhere(s, t)
    ensures |s.log| <= |z.log| && z.log[..|s.log|] == s.log
    ensures forall k :: |s.log| <= k < |z.log| ==> z.log[k].task != t
    decreases |acts|
  {
    if acts != [] {
      var m := Apply(s, acts[0]);
      GoneStep(s, acts[0], m, t);
      GoneIsNotSubmitted(m, acts[1..], z, t);
      assert z.log[..|s.log|] == z.log[..|m.log|][..|s.log|];
      assert forall k :: |s.log| <= k < |m.log| ==> z.log[k] == z.log[..|m.log|][k];
    }
  }

  // -------- what can happen at any time --------

  /** A reading of the store may fail for any handler that has not begun to submit; the handler then ends, and all
      tasks of its project are without one that looks after them. */
  lemma ReadingMayFail(s: State, h: nat, z: State)
    requires WellFormed(s) && h in s.handlers && (s.handlers[h].phase.Woken? || s.handlers[h].phase.Checking?)
    ensures Enabled(s, Abandon(h))
    ensures z == Apply(s, Abandon(h)) ==>
              && z.handlers == s.handlers - {h} && z.status == s.status && z.requests == s.requests
              && forall t :: t in s.plan.rows && s.plan.rows[t].project == s.handlers[h].project ==> t in z.unattended
  {
  }

  /** A request that ends while it is still being submitted may be opened again; its task is dispatched then. */
  lemma EndedMayBeReopened(s: State, h: nat, z: State)
    requires WellFormed(s) && h in s.handlers && s.handlers[h].phase.Marking?
    requires s.handlers[h].phase.request in s.requests && s.requests[s.handlers[h].phase.request].outcome == Ended
    ensures Enabled(s, Reopen(s.handlers[h].phase.request))
    ensures var r := s.handlers[h].phase.request;
            z == Apply(s, Reopen(r)) ==>
              && z.requests == s.requests[r := s.requests[r].(outcome := Open)]
              && z.status == s.status[s.requests[r].task := Dispatched]
  {
    assert Unmarked(s, s.handlers[h].phase.request);
  }

  /** An open request may report any stage, fail or be cancelled; one that has not ended may complete, again and
      again. */
  lemma RequestsMayReport(s: State, r: RequestId, stage: Status, h: nat)
    requires WellFormed(s) && r in s.requests
    ensures s.requests[r].outcome == Open && stage in {Dispatched, InProgress, Review, Testing} ==>
              Enabled(s, Report(r, stage))
    ensures s.requests[r].outcome == Open && stage in {Failed, Cancelled} ==> Enabled(s, End(r, stage))
    ensures s.requests[r].outcome in {Open, Completed} && h !in s.handlers ==> Enabled(s, Complete(r, h))
  {
  }

  /** A handler goes on: it reads, looks again, submits with or without success, and marks with or without. */
  lemma HandlersMayGoOn(s: State, h: nat, r: RequestId, ok: bool)
    requires WellFormed(s) && h in s.handlers
    ensures match s.handlers[h].phase
            case Woken => Enabled(s, Read(h))
            case Checking(_, _) => Enabled(s, Check(h))
            case Dispatching(todo) =>
              r !in s.requests && (todo != [] ==> todo[0] in s.plan.rows) ==> Enabled(s, Fire(h, r, ok))
            case Marking(t, _, _) => t in s.plan.rows ==> Enabled(s, Mark(h, ok))
  {
  }
}
