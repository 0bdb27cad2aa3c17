/** The two event handlers of the cascade as they run on the store: the status handler that maps
    request events to task statuses, then the auto-dispatch handler. */
module CascadeHandlers {
  import opened Common
  import opened CascadeModel
  import Text

  /** Request events by name; `StatusChanged` carries the status string of the event. */
  datatype Event =
    | RequestCompleted(r: RequestId)
    | RequestFailed(r: RequestId)
    | RequestCancelled(r: RequestId)
    | StatusChanged(r: RequestId, status: string)
    | Unrelated

  datatype DispatchOutcome =
    | Ignored
    | Proposed(tasks: seq<TaskId>)
    | Dispatched(fired: seq<(TaskId, RequestId)>, failures: seq<TaskId>)

  /** The request-status table of the status handler. */
  function MappedStatus(s: string): Option<Status> {
    if s == "received" || s == "analyzing" then Some(Status.Dispatched)
    else if s == "in_progress" then Some(InProgress)
    else if s == "review_pending" then Some(Review)
    else if s == "testing" then Some(Testing)
    else if s == "completed" then Some(Deployed)
    else if s == "failed" then Some(Failed)
    else if s == "cancelled" then Some(Cancelled)
    else None
  }

  function Translate(e: Event): Option<Status> {
    match e
    case RequestCompleted(_) => Some(Deployed)
    case RequestFailed(_) => Some(Failed)
    case RequestCancelled(_) => Some(Cancelled)
    case StatusChanged(_, s) => MappedStatus(s)
    case Unrelated => None
  }

  /** The events the auto-dispatch handler takes for a deploy. It lower-cases the status and also
      accepts "deployed"; the status handler does neither. */
  predicate CountsAsDeploy(e: Event) {
    match e
    case RequestCompleted(_) => true
    case StatusChanged(_, s) => Text.Lower(s) == "completed" || Text.Lower(s) == "deployed"
    case _ => false
  }

  predicate IsStatus(e: Event, s: string) {
    e.StatusChanged? && e.status == s
  }

  lemma CompletedCounts(e: Event)
    requires e.RequestCompleted? || IsStatus(e, "completed")
    ensures CountsAsDeploy(e)
  {
    if e.StatusChanged? { assert Text.Lower(e.status) == "completed"; }
  }

  /** The request that a submission made, and whether the task's status could be written afterwards. */
  datatype Reply = Reply(r: RequestId, marked: bool)

  /** The replies to a round of submissions; a task without one is one whose submission raised. */
  type Replies = map<TaskId, Reply>

  predicate Succeeds(replies: Replies, t: TaskId) {
    t in replies && replies[t].marked
  }

  /** Statuses after submitting `todo` in order. */
  function DispatchAll(status: map<TaskId, Status>, todo: seq<TaskId>, replies: Replies): (z: map<TaskId, Status>)
    requires forall t :: t in todo ==> t in status
    ensures z.Keys == status.Keys
    ensures forall t :: t in status ==>
              z[t] == if t in todo && Succeeds(replies, t) then Status.Dispatched else status[t]
  {
    if todo == [] then status
    else
      var first := if Succeeds(replies, todo[0]) then status[todo[0] := Status.Dispatched] else status;
      DispatchAll(first, todo[1..], replies)
  }

  function AfterStatus(status: map<TaskId, Status>, source: map<RequestId, TaskId>, e: Event): (z: map<TaskId, Status>)
    requires forall r :: r in source ==> source[r] in status
    ensures z.Keys == status.Keys
  {
    if !e.Unrelated? && e.r in source && Translate(e).Some? then status[source[e.r] := Translate(e).value] else status
  }

  const REQUEST_STATUSES: set<string> :=
    {"received", "analyzing", "in_progress", "review_pending", "testing", "completed", "failed", "cancelled"}

  /** What an event makes of the statuses, event by event; one whose request has no task, and a status outside
      the table, change nothing. */
  ghost predicate Handled(before: map<TaskId, Status>, source: map<RequestId, TaskId>, e: Event,
                          after: map<TaskId, Status>) {
    if e.Unrelated? || e.r !in source then after == before
    else
      var t := source[e.r];
      && (e.RequestCompleted? || IsStatus(e, "completed") ==> after == before[t := Deployed])
      && (e.RequestFailed? || IsStatus(e, "failed") ==> after == before[t := Failed])
      && (e.RequestCancelled? || IsStatus(e, "cancelled") ==> after == before[t := Cancelled])
      && (IsStatus(e, "received") || IsStatus(e, "analyzing") ==> after == before[t := Status.Dispatched])
      && (IsStatus(e, "in_progress") ==> after == before[t := InProgress])
      && (IsStatus(e, "review_pending") ==> after == before[t := Review])
      && (IsStatus(e, "testing") ==> after == before[t := Testing])
      && (e.StatusChanged? && e.status !in REQUEST_STATUSES ==> after == before)
  }

  lemma TranslatesEach(e: Event)
    ensures e.RequestCompleted? || IsStatus(e, "completed") ==> Translate(e) == Some(Deployed)
    ensures e.RequestFailed? || IsStatus(e, "failed") ==> Translate(e) == Some(Failed)
    ensures e.RequestCancelled? || IsStatus(e, "cancelled") ==> Translate(e) == Some(Cancelled)
    ensures IsStatus(e, "received") || IsStatus(e, "analyzing") ==> Translate(e) == Some(Status.Dispatched)
    ensures IsStatus(e, "in_progress") ==> Translate(e) == Some(InProgress)
    ensures IsStatus(e, "review_pending") ==> Translate(e) == Some(Review)
    ensures IsStatus(e, "testing") ==> Translate(e) == Some(Testing)
    ensures e.StatusChanged? && e.status !in REQUEST_STATUSES ==> Translate(e) == None
  {
  }

  /** What the dispatch loop reports: the dispatched tasks with their requests, in order. */
  function FiredOf(todo: seq<TaskId>, replies: Replies): (r: seq<(TaskId, RequestId)>)
    ensures forall t, q :: (t, q) in r <==> t in todo && Succeeds(replies, t) && replies[t].r == q
  {
    if todo == [] then []
    else if Succeeds(replies, todo[0]) then [(todo[0], replies[todo[0]].r)] + FiredOf(todo[1..], replies)
    else FiredOf(todo[1..], replies)
  }

  /** The tasks whose submission or mark failed, in order. */
  function FailedOf(todo: seq<TaskId>, replies: Replies): (r: seq<TaskId>)
    ensures forall t :: t in r <==> t in todo && !Succeeds(replies, t)
  {
    if todo == [] then []
    else if Succeeds(replies, todo[0]) then FailedOf(todo[1..], replies)
    else [todo[0]] + FailedOf(todo[1..], replies)
  }

  lemma {:induction false} ReadyInSnoc(plan: Plan, status: map<TaskId, Status>, p: ProjectId, ids: seq<TaskId>,
                                       t: TaskId)
    requires ValidPlan(plan) && status.Keys == plan.rows.Keys
    ensures ReadyIn(plan, status, p, ids + [t]) ==
              ReadyIn(plan, status, p, ids) + if Ready(plan, status, p, t) then [t] else []
  {
    if ids == [] {
      assert ids + [t] == [t];
    } else {
      assert (ids + [t])[1..] == ids[1..] + [t];
      ReadyInSnoc(plan, status, p, ids[1..], t);
    }
  }

  /** The tasks still in the backlog and finalized, in order. */
  function Waiting(plan: Plan, status: map<TaskId, Status>, ids: seq<TaskId>): (r: seq<TaskId>)
    requires status.Keys == plan.rows.Keys && forall t :: t in ids ==> t in plan.rows
    ensures forall t :: t in r <==> t in ids && status[t] == Backlog && plan.rows[t].list == Finalized
    ensures (forall t :: t in ids ==> status[t] == Backlog && plan.rows[t].list == Finalized) ==> r == ids
  {
    if ids == [] then []
    else
      var rest := Waiting(plan, status, ids[1..]);
      if status[ids[0]] == Backlog && plan.rows[ids[0]].list == Finalized then [ids[0]] + rest else rest
  }

  /** Once `done` is deployed nothing keeps the task from being dispatched. */
  ghost predicate Unblocked(plan: Plan, status: map<TaskId, Status>, p: ProjectId, done: TaskId, t: TaskId)
    requires ValidPlan(plan) && status.Keys == plan.rows.Keys
  {
    && Listed(plan, p, t) && t != done && status[t] == Backlog && plan.rows[t].list == Finalized
    && forall d :: d in plan.rows[t].deps ==> Listed(plan, p, d) && (d == done || status[d] == Deployed)
  }

  lemma ReadyIffUnblocked(plan: Plan, status: map<TaskId, Status>, p: ProjectId, done: TaskId)
    requires ValidPlan(plan) && status.Keys == plan.rows.Keys && done in status
    ensures forall t :: t in ReadyList(plan, status[done := Deployed], p) <==> Unblocked(plan, status, p, done, t)
  {
  }

  class Board {
    const plan: Plan
    const auto: set<ProjectId>
    const source: map<RequestId, TaskId>  // source_task_id of the requests that have one
    const owner: map<RequestId, ProjectId>  // project_id of the requests that have one
    var status: map<TaskId, Status>

    ghost predicate Valid()
      reads this
    {
      && ValidPlan(plan)
      && status.Keys == plan.rows.Keys
      && forall r :: r in source ==> source[r] in plan.rows
    }

    constructor (plan: Plan, auto: set<ProjectId>, source: map<RequestId, TaskId>, owner: map<RequestId, ProjectId>,
                 status: map<TaskId, Status>)
      requires ValidPlan(plan) && status.Keys == plan.rows.Keys
      requires forall r :: r in source ==> source[r] in plan.rows
      ensures Valid() && this.plan == plan && this.auto == auto && this.source == source
      ensures this.owner == owner && this.status == status
    {
      this.plan := plan;
      this.auto := auto;
      this.source := source;
      this.owner := owner;
      this.status := status;
    }

    /** A blocker counts only if the listing has it with status deployed. */
    method IsBlocked(p: ProjectId, t: TaskId) returns (blocked: bool)
      requires Valid() && t in plan.rows
      ensures blocked <==> !DepsDeployed(plan, status, p, t)
    {
      var deps := plan.rows[t].deps;
      blocked := false;
      var j := 0;
      while j < |deps| && !blocked
        invariant 0 <= j <= |deps|
        invariant blocked ==> !DepsDeployed(plan, status, p, t)
        invariant !blocked ==> forall d :: d in deps[..j] ==> Listed(plan, p, d) && status[d] == Deployed
      {
        if !Listed(plan, p, deps[j]) || status[deps[j]] != Deployed {
          blocked := true;
        }
        j := j + 1;
      }
      if !blocked { assert deps[..j] == deps; }
    }

    method GetDispatchableTasks(p: ProjectId) returns (out: seq<TaskId>)
      requires Valid()
      ensures out == ReadyList(plan, status, p)
    {
      out := [];
      var i := 0;
      while i < |plan.order|
        invariant 0 <= i <= |plan.order|
        invariant out == ReadyIn(plan, status, p, plan.order[..i])
      {
        var t := plan.order[i];
        ReadyInSnoc(plan, status, p, plan.order[..i], t);
        assert plan.order[..i + 1] == plan.order[..i] + [t];
        if Listed(plan, p, t) && status[t] == Backlog && plan.rows[t].list == Finalized {
          var blocked := IsBlocked(p, t);
          if !blocked { out := out + [t]; }
        }
        i := i + 1;
      }
      assert plan.order[..i] == plan.order;
    }

    method SetTaskStatus(t: TaskId, s: Status)
      requires Valid()
      modifies this`status
      ensures Valid()
      ensures status == if t in old(status) then old(status)[t := s] else old(status)
    {
      if t in status { status := status[t := s]; }
    }

    method TaskStatusHandler(e: Event)
      requires Valid()
      modifies this`status
      ensures Valid()
      ensures Handled(old(status), source, e, status)
      ensures status == AfterStatus(old(status), source, e)
    {
      TranslatesEach(e);
      if e.Unrelated? || e.r !in source { return; }
      var s := Translate(e);
      if s.None? { return; }
      SetTaskStatus(source[e.r], s.value);
    }

    /** Submits each task and marks it dispatched; a failure of either is recorded and the loop goes on. */
    method LegacyDispatch(todo: seq<TaskId>, replies: Replies)
      returns (fired: seq<(TaskId, RequestId)>, failures: seq<TaskId>)
      requires Valid() && forall t :: t in todo ==> t in plan.rows
      modifies this`status
      ensures Valid() && status == DispatchAll(old(status), todo, replies)
      ensures fired == FiredOf(todo, replies) && failures == FailedOf(todo, replies)
    {
      fired, failures := [], [];
      var rest := todo;
      ghost var final := DispatchAll(status, todo, replies);
      while rest != []
        invariant Valid() && (forall t :: t in rest ==> t in plan.rows)
        invariant DispatchAll(status, rest, replies) == final
        invariant fired + FiredOf(rest, replies) == FiredOf(todo, replies)
        invariant failures + FailedOf(rest, replies) == FailedOf(todo, replies)
        decreases |rest|
      {
        var t := rest[0];
        rest := rest[1..];
        if Succeeds(replies, t) {
          Assoc(fired, [(t, replies[t].r)], FiredOf(rest, replies));
          status := status[t := Status.Dispatched];
          fired := fired + [(t, replies[t].r)];
        } else {
          Assoc(failures, [t], FailedOf(rest, replies));
          failures := failures + [t];
        }
      }
    }

    /** Re-reads each task and keeps, in order, those still in the backlog and finalized. */
    method StillWaiting(ready: seq<TaskId>) returns (todo: seq<TaskId>)
      requires Valid() && forall t :: t in ready ==> t in plan.rows
      ensures todo == Waiting(plan, status, ready)
    {
      todo := [];
      var rest := ready;
      while rest != []
        invariant forall t :: t in rest ==> t in plan.rows
        invariant todo + Waiting(plan, status, rest) == Waiting(plan, status, ready)
        decreases |rest|
      {
        if status[rest[0]] == Backlog && plan.rows[rest[0]].list == Finalized {
          Assoc(todo, [rest[0]], Waiting(plan, status, rest[1..]));
          todo := todo + [rest[0]];
        }
        rest := rest[1..];
      }
    }

    /** A completion, or a status that says so in any case, of a request that has a task and belongs to a project
        that dispatches. */
    predicate Triggers(e: Event)
      reads this
    {
      && !e.Unrelated? && e.r in source && e.r in owner && owner[e.r] in auto
      && (e.RequestCompleted? || (e.StatusChanged? && Text.Lower(e.status) in {"completed", "deployed"}))
    }

    /** Reads the ready set, re-reads each task, then dispatches or, in governed mode, proposes. `readable`
        says whether the store can be read; if not, the handler ends without doing anything. */
    method AutoDispatchHandler(e: Event, governed: bool, readable: bool, replies: Replies)
      returns (outcome: DispatchOutcome)
      requires Valid()
      modifies this`status
      ensures Valid()
      ensures outcome.Ignored? || outcome.Proposed? ==> status == old(status)
      ensures !Triggers(e) || !readable ==> outcome.Ignored?
      ensures Triggers(e) && readable ==>
                var ready := ReadyList(plan, old(status), owner[e.r]);
                && (ready == [] ==> outcome.Ignored?)
                && (ready != [] && governed ==> outcome == Proposed(ready))
                && (ready != [] && !governed ==>
                      && status == DispatchAll(old(status), ready, replies)
                      && outcome == DispatchOutcome.Dispatched(FiredOf(ready, replies), FailedOf(ready, replies)))
    {
      if !CountsAsDeploy(e) || !readable || e.r !in source || e.r !in owner { return Ignored; }
      var p := owner[e.r];
      if p !in auto { return Ignored; }
      var ready := GetDispatchableTasks(p);
      if ready == [] { return Ignored; }
      var todo := StillWaiting(ready);
      assert todo == ready;
      if todo == [] { return Ignored; }
      if governed { return Proposed(todo); }
      var fired, failures := LegacyDispatch(todo, replies);
      return DispatchOutcome.Dispatched(fired, failures);
    }

    /** One emitted event, with the handlers in registration order: the status handler is first. After a
        completion the task is deployed, and of the tasks that this leaves unblocked in a project that
        dispatches, those whose submission and mark succeed are dispatched; no other status changes. */
    method Emit(e: Event, governed: bool, readable: bool, replies: Replies) returns (outcome: DispatchOutcome)
      requires Valid()
      modifies this`status
      ensures Valid()
      ensures (e.RequestCompleted? || IsStatus(e, "completed")) && e.r in source ==> status[source[e.r]] == Deployed
      ensures (e.RequestCompleted? || IsStatus(e, "completed")) && e.r in source && e.r in owner &&
              owner[e.r] in auto && readable ==>
                var p, done := owner[e.r], source[e.r];
                if governed then
                  && status == old(status)[done := Deployed]
                  && (outcome.Ignored? || outcome.Proposed?)
                  && forall t :: Unblocked(plan, old(status), p, done, t) <==> outcome.Proposed? && t in outcome.tasks
                else
                  forall t :: t in status && t != done ==>
                    status[t] == if Unblocked(plan, old(status), p, done, t) && t in replies && replies[t].marked
                                 then Status.Dispatched else old(status)[t]
      ensures !governed && readable && Triggers(e) ==>
                var p := owner[e.r];
                var mid := AfterStatus(old(status), source, e);
                && status == DispatchAll(mid, ReadyList(plan, mid, p), replies)
                && forall t :: Ready(plan, status, p, t) <==> Ready(plan, mid, p, t) && !Succeeds(replies, t)
      ensures outcome.Ignored? || outcome.Proposed? ==>
                Handled(old(status), source, e, status) && status == AfterStatus(old(status), source, e)
      ensures e.RequestFailed? || e.RequestCancelled? || e.Unrelated? ==> outcome.Ignored?
    {
      TaskStatusHandler(e);
      ghost var mid := status;
      outcome := AutoDispatchHandler(e, governed, readable, replies);
      if e.RequestCompleted? || IsStatus(e, "completed") { CompletedCounts(e); }
      if readable && Triggers(e) {
        if e.RequestCompleted? || IsStatus(e, "completed") {
          ReadyIffUnblocked(plan, old(status), owner[e.r], source[e.r]);
        }
        OnlyRefusedStaysReady(plan, mid, owner[e.r], replies);
      }
    }
  }

  /** Dispatching the ready set leaves exactly the refused tasks ready: nothing is forgotten. */
  lemma OnlyRefusedStaysReady(plan: Plan, status: map<TaskId, Status>, p: ProjectId, replies: Replies)
    requires ValidPlan(plan) && status.Keys == plan.rows.Keys
    ensures var z := DispatchAll(status, ReadyList(plan, status, p), replies);
            forall t :: Ready(plan, z, p, t) <==> Ready(plan, status, p, t) && !Succeeds(replies, t)
  {
    var ready := ReadyList(plan, status, p);
    var z := DispatchAll(status, ready, replies);
    forall t ensures Ready(plan, z, p, t) <==> Ready(plan, status, p, t) && !Succeeds(replies, t) {
      if t in plan.rows {
        forall d | Listed(plan, p, d) ensures z[d] == Deployed <==> status[d] == Deployed {
          assert d in ready ==> status[d] == Backlog;
        }
        assert DepsDeployed(plan, z, p, t) <==> DepsDeployed(plan, status, p, t);
        assert t in ready <==> Ready(plan, status, p, t);
      }
    }
  }

  /** With the handlers registered the other way round, a task that waits for the completing task
      and for nothing else undeployed stays in the backlog, ready, although every submission is
      accepted. */
  lemma SwappedHandlersForgetUnblockedWork(plan: Plan, status: map<TaskId, Status>, p: ProjectId, done: TaskId,
                                           t: TaskId, replies: Replies)
    requires ValidPlan(plan) && status.Keys == plan.rows.Keys && done in status
    requires status[done] != Deployed && status[done] != Backlog && Ready(plan, status[done := Deployed], p, t)
    requires done in plan.rows[t].deps
    ensures var z := DispatchAll(status, ReadyList(plan, status, p), replies)[done := Deployed];
            Ready(plan, z, p, t)
  {
    var ready := ReadyList(plan, status, p);
    assert t !in ready;
    forall d | d in plan.rows[t].deps
      ensures DispatchAll(status, ready, replies)[done := Deployed][d] == Deployed
    {
      assert status[done := Deployed][d] == Deployed;
      assert d != done ==> status[d] == Deployed && d !in ready;
    }
  }
}
