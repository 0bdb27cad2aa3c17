/** The sequential handler is one run of the protocol: handling a completion to its end without
    interleaving gives the statuses that the store methods compute. */
module CascadeRefinement {
  import opened Common
  import opened CascadeModel
  import opened CascadeHandlers
  import opened CascadeScripts

  // -------- the status handler --------

  /** The step of the protocol that an event reports. */
  predicate Reports(e: Event, a: Step) {
    match a
    case Complete(r, _) => e == RequestCompleted(r) || e == StatusChanged(r, "completed")
    case End(r, final) =>
      || (final == Failed && (e == RequestFailed(r) || e == StatusChanged(r, "failed")))
      || (final == Cancelled && (e == RequestCancelled(r) || e == StatusChanged(r, "cancelled")))
    case Report(r, stage) =>
      || (stage == Status.Dispatched && (e == StatusChanged(r, "received") || e == StatusChanged(r, "analyzing")))
      || (stage == InProgress && e == StatusChanged(r, "in_progress"))
      || (stage == Review && e == StatusChanged(r, "review_pending"))
      || (stage == Testing && e == StatusChanged(r, "testing"))
    case Reopen(r) => e == StatusChanged(r, "analyzing")
    case _ => false
  }

  /** What a step of a request writes. */
  function Written(a: Step): Status
    requires RequestStep(a)
  {
    match a
    case Complete(_, _) => Deployed
    case End(_, final) => final
    case Report(_, stage) => stage
    case Reopen(_) => Status.Dispatched
  }

  lemma RequestStepWrites(s: State, a: Step)
    requires WellFormed(s) && Enabled(s, a) && RequestStep(a)
    ensures Apply(s, a).status == s.status[s.requests[a.r].task := Written(a)]
  {
  }

  lemma ReportIsWritten(before: map<TaskId, Status>, source: map<RequestId, TaskId>, e: Event, a: Step,
                        after: map<TaskId, Status>)
    requires Reports(e, a) && a.r in source && Handled(before, source, e, after)
    ensures after == before[source[a.r] := Written(a)]
  {
  }

  /** The status handler does to the statuses what the reported step of the protocol does: a completion
      deploys, a failure or cancellation ends the task so, and a stage is written as it is. */
  lemma EventIsAStep(s: State, source: map<RequestId, TaskId>, e: Event, a: Step, after: map<TaskId, Status>)
    requires WellFormed(s) && Enabled(s, a) && Reports(e, a)
    requires a.r in source && source[a.r] == s.requests[a.r].task
    requires Handled(s.status, source, e, after)
    ensures after == Apply(s, a).status
  {
    ReportIsWritten(s.status, source, e, a, after);
    RequestStepWrites(s, a);
  }

  // -------- the auto-dispatch handler --------

  /** The replies name requests that do not exist yet, a different one for each task. */
  ghost predicate FreshReplies(s: State, todo: seq<TaskId>, replies: Replies) {
    && (forall t :: t in todo && t in replies ==> replies[t].r !in s.requests)
    && Distinct(todo)
    && (forall t, u :: t in todo && u in todo && t in replies && u in replies && t != u ==>
          replies[t].r != replies[u].r)
  }

  lemma CheckHead(s: State, h: nat, p: ProjectId, unchecked: seq<TaskId>, kept: seq<TaskId>) returns (w: Walk, z: State)
    requires WellFormed(s) && h in s.handlers && s.handlers[h] == Handler(p, Checking(unchecked, kept))
    requires unchecked != []
    requires unchecked[0] in s.plan.rows && s.status[unchecked[0]] == Backlog
    requires s.plan.rows[unchecked[0]].list == Finalized
    ensures From(w, s, z) && WellFormed(z) && OnlyHandlers(s, z)
    ensures z.handlers == s.handlers[h := Handler(p, Checking(unchecked[1..], kept + [unchecked[0]]))]
  {
    z := Recheck(s, h);
    w := OneStep(s, Check(h), z);
  }

  lemma {:induction false} ChecksKeepReady(s: State, h: nat, p: ProjectId, unchecked: seq<TaskId>, kept: seq<TaskId>)
    returns (w: Walk, z: State)
    requires WellFormed(s) && h in s.handlers && s.handlers[h] == Handler(p, Checking(unchecked, kept))
    requires forall t :: t in unchecked ==>
               t in s.plan.rows && s.status[t] == Backlog && s.plan.rows[t].list == Finalized
    ensures From(w, s, z) && WellFormed(z) && OnlyHandlers(s, z)
    ensures z.handlers == s.handlers[h := Handler(p, Dispatching(kept + unchecked))]
    decreases |unchecked|
  {
    if unchecked == [] {
      assert kept + unchecked == kept;
      w, z := EndsChecking(s, h, p, kept);
    } else {
      assert kept + unchecked == (kept + [unchecked[0]]) + unchecked[1..];
      var w1, m := CheckHead(s, h, p, unchecked, kept);
      var w2;
      w2, z := ChecksKeepReady(m, h, p, unchecked[1..], kept + [unchecked[0]]);
      w := Joined(w1, w2, s, m, z);
    }
  }

  lemma StillFresh(s: State, todo: seq<TaskId>, replies: Replies, m: State)
    requires todo != [] && FreshReplies(s, todo, replies)
    requires forall r :: r in m.requests ==> r in s.requests || (todo[0] in replies && r == replies[todo[0]].r)
    ensures FreshReplies(m, todo[1..], replies)
  {
    TailDistinct(todo);
  }

  /** What handling one task leaves, for a spare request that nobody uses. */
  ghost predicate HeadHandled(s: State, h: nat, p: ProjectId, todo: seq<TaskId>, replies: Replies, spare: RequestId,
                              m: State)
    requires todo != []
  {
    && WellFormed(m) && m.plan == s.plan && m.handlers == s.handlers[h := Handler(p, Dispatching(todo[1..]))]
    && m.status == (if Succeeds(replies, todo[0]) then s.status[todo[0] := Status.Dispatched] else s.status)
    && (forall r :: r in m.requests ==> r in s.requests || (todo[0] in replies && r == replies[todo[0]].r))
    && spare !in m.requests
  }

  /** A refused submission. */
  lemma RefusedHead(s: State, h: nat, p: ProjectId, todo: seq<TaskId>, replies: Replies, spare: RequestId)
    returns (w: Walk, m: State)
    requires WellFormed(s) && h in s.handlers && s.handlers[h] == Handler(p, Dispatching(todo)) && todo != []
    requires todo[0] in s.plan.rows && todo[0] !in replies && spare !in s.requests
    ensures From(w, s, m) && HeadHandled(s, h, p, todo, replies, spare, m)
  {
    m := Submit(s, h, spare, false);
    w := OneStep(s, Fire(h, spare, false), m);
  }

  lemma SubmittedHead(s: State, h: nat, p: ProjectId, todo: seq<TaskId>, r: RequestId) returns (w: Walk, m: State)
    requires WellFormed(s) && h in s.handlers && s.handlers[h] == Handler(p, Dispatching(todo)) && todo != []
    requires todo[0] in s.plan.rows && r !in s.requests
    ensures From(w, s, m) && WellFormed(m) && m.plan == s.plan && m.status == s.status
    ensures m.handlers == s.handlers[h := Handler(p, Marking(todo[0], r, todo[1..]))]
    ensures m.requests == s.requests[r := Request(todo[0], Open)]
  {
    m := Submit(s, h, r, true);
    w := OneStep(s, Fire(h, r, true), m);
  }

  lemma MarkedHead(s: State, h: nat, p: ProjectId, t: TaskId, r: RequestId, todo: seq<TaskId>, written: bool)
    returns (w: Walk, m: State)
    requires WellFormed(s) && h in s.handlers && s.handlers[h] == Handler(p, Marking(t, r, todo)) && t in s.plan.rows
    ensures From(w, s, m) && WellFormed(m) && m.plan == s.plan && m.requests == s.requests
    ensures m.handlers == s.handlers[h := Handler(p, Dispatching(todo))]
    ensures m.status == if written then s.status[t := Status.Dispatched] else s.status
  {
    m := MarkDispatched(s, h, written);
    w := OneStep(s, Mark(h, written), m);
  }

  /** An accepted submission and its mark. */
  lemma AcceptedHead(s: State, h: nat, p: ProjectId, todo: seq<TaskId>, replies: Replies, spare: RequestId)
    returns (w: Walk, m: State)
    requires WellFormed(s) && h in s.handlers && s.handlers[h] == Handler(p, Dispatching(todo)) && todo != []
    requires todo[0] in s.plan.rows && todo[0] in replies && replies[todo[0]].r !in s.requests
    requires spare !in s.requests && replies[todo[0]].r != spare
    ensures From(w, s, m) && HeadHandled(s, h, p, todo, replies, spare, m)
  {
    var reply := replies[todo[0]];
    var w1, n := SubmittedHead(s, h, p, todo, reply.r);
    var w2;
    w2, m := MarkedHead(n, h, p, todo[0], reply.r, todo[1..], reply.marked);
    w := Joined(w1, w2, s, n, m);
  }

  lemma FiresHead(s: State, h: nat, p: ProjectId, todo: seq<TaskId>, replies: Replies, spare: RequestId)
    returns (w: Walk, m: State)
    requires WellFormed(s) && h in s.handlers && s.handlers[h] == Handler(p, Dispatching(todo)) && todo != []
    requires todo[0] in s.plan.rows && FreshReplies(s, todo, replies)
    requires spare !in s.requests && forall t :: t in replies ==> replies[t].r != spare
    ensures From(w, s, m) && HeadHandled(s, h, p, todo, replies, spare, m) && FreshReplies(m, todo[1..], replies)
  {
    if todo[0] in replies {
      w, m := AcceptedHead(s, h, p, todo, replies, spare);
    } else {
      w, m := RefusedHead(s, h, p, todo, replies, spare);
    }
    StillFresh(s, todo, replies, m);
  }

  /** Submitting and marking the list head by head, closing the handler at the end. `spare` is an unused id. */
  lemma {:induction false} FiresDispatchAll(s: State, h: nat, p: ProjectId, todo: seq<TaskId>, replies: Replies,
                                            spare: RequestId)
    returns (w: Walk, z: State)
    requires WellFormed(s) && h in s.handlers && s.handlers[h] == Handler(p, Dispatching(todo))
    requires (forall t :: t in todo ==> t in s.plan.rows) && FreshReplies(s, todo, replies)
    requires spare !in s.requests && forall t :: t in replies ==> replies[t].r != spare
    ensures From(w, s, z) && WellFormed(z)
    ensures z.plan == s.plan && z.handlers == s.handlers - {h}
    ensures z.status == DispatchAll(s.status, todo, replies)
    decreases |todo|
  {
    if todo == [] {
      w, z := Closes(s, h, p, spare);
    } else {
      var w1, m := FiresHead(s, h, p, todo, replies, spare);
      var w2;
      w2, z := FiresDispatchAll(m, h, p, todo[1..], replies, spare);
      assert m.handlers - {h} == s.handlers - {h};
      w := Joined(w1, w2, s, m, z);
    }
  }

  /** From a woken handler to its end: the run dispatches the ready set as the store method does. */
  lemma HandlerRunMatchesStore(s: State, h: nat, p: ProjectId, replies: Replies, spare: RequestId)
    returns (acts: seq<Step>, z: State)
    requires WellFormed(s) && h in s.handlers && s.handlers[h] == Handler(p, Woken)
    requires FreshReplies(s, ReadyList(s.plan, s.status, p), replies)
    requires spare !in s.requests && forall t :: t in replies ==> replies[t].r != spare
    ensures Runs(s, acts, z) && WellFormed(z)
    ensures z.status == DispatchAll(s.status, ReadyList(s.plan, s.status, p), replies)
    ensures z.handlers == s.handlers - {h}
  {
    var ready := ReadyList(s.plan, s.status, p);
    var w1, m := Reads(s, h, p, ready);
    var w2, n := ChecksKeepReady(m, h, p, ready, []);
    assert [] + ready == ready;
    var w3;
    w3, z := FiresDispatchAll(n, h, p, ready, replies, spare);
    assert n.handlers - {h} == s.handlers - {h};
    var w := Joined(w1, w2, s, m, n);
    w := Joined(w, w3, s, n, z);
    WalkIsARun(w, s, z);
    acts := w.acts;
  }

  lemma CompletionWakes(s: State, r: RequestId, h: nat, m: State)
    requires Next(s, Complete(r, h), m) && ProjectOf(s, r) in s.auto
    ensures m.plan == s.plan && m.status == s.status[s.requests[r].task := Deployed]
    ensures h in m.handlers && m.handlers[h] == Handler(ProjectOf(s, r), Woken)
    ensures m.requests.Keys == s.requests.Keys
  {
  }

  /** A completion and the handler it wakes, taken to its end without interleaving: some run of the protocol
      leaves the statuses that emitting the completion on the store leaves. */
  lemma CompletionRunMatchesEmit(s: State, r: RequestId, h: nat, replies: Replies, spare: RequestId)
    returns (acts: seq<Step>, z: State)
    requires WellFormed(s) && Enabled(s, Complete(r, h)) && ProjectOf(s, r) in s.auto
    requires forall t :: t in replies ==> replies[t].r !in s.requests
    requires forall t, u :: t in replies && u in replies && t != u ==> replies[t].r != replies[u].r
    requires spare !in s.requests && forall t :: t in replies ==> replies[t].r != spare
    ensures acts != [] && acts[0] == Complete(r, h) && Runs(s, acts, z)
    ensures z.status.Keys == s.status.Keys && z.status[s.requests[r].task] == Deployed
    ensures forall t :: t in s.status && t != s.requests[r].task ==>
              z.status[t] == if Unblocked(s.plan, s.status, ProjectOf(s, r), s.requests[r].task, t) &&
                                t in replies && replies[t].marked
                             then Status.Dispatched else s.status[t]
  {
    var p, done := ProjectOf(s, r), s.requests[r].task;
    var m := Deploy(s, r, h);
    CompletionWakes(s, r, h, m);
    ReadyIffUnblocked(s.plan, s.status, p, done);
    ReadyInDistinct(m.plan, m.status, p, m.plan.order);
    var rest;
    rest, z := HandlerRunMatchesStore(m, h, p, replies, spare);
    acts := [Complete(r, h)] + rest;
    assert acts[1..] == rest;
  }
}
