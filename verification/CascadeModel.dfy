/** The task cascade as a protocol: requests run, finish and wake an auto-dispatch
    handler, which reads the ready tasks, re-checks each one, submits it, and then marks it
    dispatched. Every step is one store access or one submission, so handlers of different
    completions interleave, and requests may report between a submission and its mark. */
module CascadeModel {
  import opened Common

  // Identities are only ever compared.
  type TaskId(==, !new)
  type ProjectId(==, !new)
  type RequestId(==, !new)

  datatype Status = Backlog | Dispatched | InProgress | Review | Testing | Deployed | Failed | Cancelled

  datatype ListStatus = Draft | Finalized | Archived

  /** The columns of a task row that no step of the cascade writes. */
  datatype Row = Row(project: ProjectId, version: nat, list: ListStatus, deps: seq<TaskId>)

  /** `order` is the table in ordinal order. */
  datatype Plan = Plan(order: seq<TaskId>, rows: map<TaskId, Row>)

  predicate ValidPlan(plan: Plan) {
    && (forall t :: t in plan.order ==> t in plan.rows)
    && (forall t :: t in plan.rows ==> t in plan.order)
    && Distinct(plan.order)
  }

  /** The newest list version of the project that holds a row which is not archived; 0 for none. */
  function LatestIn(plan: Plan, ids: seq<TaskId>, p: ProjectId): nat
    requires forall t :: t in ids ==> t in plan.rows
  {
    if ids == [] then 0
    else
      var rest := LatestIn(plan, ids[1..], p);
      var row := plan.rows[ids[0]];
      if row.project == p && row.list != Archived && row.version > rest then row.version else rest
  }

  function Latest(plan: Plan, p: ProjectId): nat
    requires ValidPlan(plan)
  {
    LatestIn(plan, plan.order, p)
  }

  /** The rows that a listing of the project without filters returns. */
  predicate Listed(plan: Plan, p: ProjectId, t: TaskId)
    requires ValidPlan(plan)
  {
    t in plan.rows && plan.rows[t].project == p && plan.rows[t].version == Latest(plan, p) != 0
  }

  /** A row of the project that is not archived. */
  predicate Current(plan: Plan, p: ProjectId, t: TaskId) {
    t in plan.rows && plan.rows[t].project == p && plan.rows[t].list != Archived
  }

  /** The listing's version is the newest one that has a row which is not archived. */
  lemma {:induction false} LatestIsNewest(plan: Plan, ids: seq<TaskId>, p: ProjectId)
    requires forall t :: t in ids ==> t in plan.rows
    ensures forall t :: t in ids && Current(plan, p, t) ==> plan.rows[t].version <= LatestIn(plan, ids, p)
    ensures LatestIn(plan, ids, p) != 0 ==>
              exists t :: t in ids && Current(plan, p, t) && plan.rows[t].version == LatestIn(plan, ids, p)
  {
    if ids != [] {
      LatestIsNewest(plan, ids[1..], p);
      assert forall t :: t in ids ==> t == ids[0] || t in ids[1..];
      if LatestIn(plan, ids, p) != LatestIn(plan, ids[1..], p) {
        assert Current(plan, p, ids[0]) && ids[0] in ids;
      }
    }
  }

  /** A row is listed exactly if its version has a row that is not archived and no newer version has one. */
  lemma ListedIffNewest(plan: Plan, p: ProjectId, t: TaskId)
    requires ValidPlan(plan) && t in plan.rows && plan.rows[t].project == p
    ensures Listed(plan, p, t) <==>
            && plan.rows[t].version > 0
            && (exists u :: Current(plan, p, u) && plan.rows[u].version == plan.rows[t].version)
            && forall u :: Current(plan, p, u) ==> plan.rows[u].version <= plan.rows[t].version
  {
    LatestIsNewest(plan, plan.order, p);
  }

  /** So a list version that is not archived is hidden exactly if a newer one has a row that is not archived. */
  lemma HiddenIffNewer(plan: Plan, p: ProjectId, t: TaskId)
    requires ValidPlan(plan) && Current(plan, p, t) && plan.rows[t].version > 0
    ensures !Listed(plan, p, t) <==> exists u :: Current(plan, p, u) && plan.rows[u].version > plan.rows[t].version
  {
    ListedIffNewest(plan, p, t);
  }

  predicate DepsDeployed(plan: Plan, status: map<TaskId, Status>, p: ProjectId, t: TaskId)
    requires ValidPlan(plan) && status.Keys == plan.rows.Keys && t in plan.rows
  {
    forall d :: d in plan.rows[t].deps ==> Listed(plan, p, d) && status[d] == Deployed
  }

  /** Backlog, finalized, and every dependency resolves to a deployed task of the same listing. */
  predicate Ready(plan: Plan, status: map<TaskId, Status>, p: ProjectId, t: TaskId)
    requires ValidPlan(plan) && status.Keys == plan.rows.Keys
  {
    && Listed(plan, p, t)
    && status[t] == Backlog
    && plan.rows[t].list == Finalized
    && DepsDeployed(plan, status, p, t)
  }

  datatype Outcome = Open | Completed | Ended

  datatype Request = Request(task: TaskId, outcome: Outcome)

  /** Where an auto-dispatch handler stands between two steps. While marking, the task has been
      submitted under the request and its status has not been written yet. */
  datatype Phase =
    | Woken
    | Checking(unchecked: seq<TaskId>, kept: seq<TaskId>)
    | Dispatching(todo: seq<TaskId>)
    | Marking(task: TaskId, request: RequestId, todo: seq<TaskId>)

  datatype Handler = Handler(project: ProjectId, phase: Phase)

  /** One submission made by the cascade and what was true just before it: whether the task was in the
      backlog, whether a handler was about to mark it, whether an earlier mark of it had failed, and
      its dependencies. */
  datatype Firing = Firing(
    task: TaskId, fromBacklog: bool, beingMarked: bool, markFailed: bool,
    depsDeployedNow: bool, everDeployed: set<TaskId>, overwritten: set<TaskId>)

  /** History: `log`, the submissions; `everDeployed`, tasks deployed at some time; `overwritten`, those
      whose deployed status was overwritten and not written again; `markFailed`, tasks whose status
      write failed after a submission; `unattended`, tasks that no handler since the last completion
      has been able to look after. */
  datatype State = State(
    plan: Plan,
    auto: set<ProjectId>,
    status: map<TaskId, Status>,
    requests: map<RequestId, Request>,
    handlers: map<nat, Handler>,
    log: seq<Firing>,
    everDeployed: set<TaskId>,
    overwritten: set<TaskId>,
    markFailed: set<TaskId>,
    unattended: set<TaskId>)

  /** Events of a request (a completion may be delivered again), and moves of a handler. A request that is
      cancelled while it is still being submitted is reopened: the submission then writes that it is being
      analyzed and starts its workflow. A handler whose reading of the store raises is abandoned. */
  datatype Step =
    | Report(r: RequestId, stage: Status)
    | Complete(r: RequestId, h: nat)
    | End(r: RequestId, final: Status)
    | Reopen(r: RequestId)
    | Read(h: nat)
    | Check(h: nat)
    | Abandon(h: nat)
    | Fire(h: nat, r: RequestId, accepted: bool)
    | Mark(h: nat, written: bool)

  predicate IsInFlight(s: Status) {
    s == Dispatched || s == InProgress || s == Review || s == Testing
  }

  predicate WellFormed(s: State) {
    && ValidPlan(s.plan)
    && s.status.Keys == s.plan.rows.Keys
    && (forall r :: r in s.requests ==> s.requests[r].task in s.plan.rows)
  }

  function ProjectOf(s: State, r: RequestId): ProjectId
    requires WellFormed(s) && r in s.requests
  {
    s.plan.rows[s.requests[r].task].project
  }

  /** Some handler has submitted under the request and has not marked the task yet. */
  predicate Unmarked(s: State, r: RequestId) {
    exists h :: h in s.handlers && s.handlers[h].phase.Marking? && s.handlers[h].phase.request == r
  }

  predicate Enabled(s: State, a: Step)
    requires WellFormed(s)
  {
    match a
    case Report(r, stage) => r in s.requests && s.requests[r].outcome == Open && IsInFlight(stage)
    case Complete(r, h) => r in s.requests && s.requests[r].outcome != Ended && h !in s.handlers
    case End(r, final) => r in s.requests && s.requests[r].outcome == Open && (final == Failed || final == Cancelled)
    case Reopen(r) => r in s.requests && s.requests[r].outcome == Ended && Unmarked(s, r)
    case Read(h) => h in s.handlers && s.handlers[h].phase.Woken?
    case Check(h) => h in s.handlers && s.handlers[h].phase.Checking?
    case Abandon(h) => h in s.handlers && (s.handlers[h].phase.Woken? || s.handlers[h].phase.Checking?)
    case Mark(h, _) => h in s.handlers && s.handlers[h].phase.Marking? && s.handlers[h].phase.task in s.plan.rows
    case Fire(h, r, _) => h in s.handlers && s.handlers[h].phase.Dispatching? && r !in s.requests
                          && (s.handlers[h].phase.todo != [] ==> s.handlers[h].phase.todo[0] in s.plan.rows)
  }

  /** The ready tasks in listing order. */
  function ReadyIn(plan: Plan, status: map<TaskId, Status>, p: ProjectId, ids: seq<TaskId>): (r: seq<TaskId>)
    requires ValidPlan(plan) && status.Keys == plan.rows.Keys
    ensures forall t :: t in r <==> t in ids && Ready(plan, status, p, t)
  {
    if ids == [] then []
    else
      var rest := ReadyIn(plan, status, p, ids[1..]);
      if Ready(plan, status, p, ids[0]) then [ids[0]] + rest else rest
  }

  lemma {:induction false} ReadyInDistinct(plan: Plan, status: map<TaskId, Status>, p: ProjectId, ids: seq<TaskId>)
    requires ValidPlan(plan) && status.Keys == plan.rows.Keys && Distinct(ids)
    ensures Distinct(ReadyIn(plan, status, p, ids))
  {
    if ids != [] {
      var rest := ReadyIn(plan, status, p, ids[1..]);
      TailDistinct(ids);
      ReadyInDistinct(plan, status, p, ids[1..]);
      PrependDistinct(ids[0], rest);
    }
  }

  function ReadyList(plan: Plan, status: map<TaskId, Status>, p: ProjectId): seq<TaskId>
    requires ValidPlan(plan) && status.Keys == plan.rows.Keys
  {
    ReadyIn(plan, status, p, plan.order)
  }

  /** One status write. Writing something else over "deployed" is remembered until it is deployed again. */
  function Write(s: State, t: TaskId, x: Status): (z: State)
    requires WellFormed(s) && t in s.status
    ensures WellFormed(z) && z.plan == s.plan && z.auto == s.auto
  {
    s.(status := s.status[t := x],
       overwritten := if x == Deployed then s.overwritten - {t}
                      else if s.status[t] == Deployed then s.overwritten + {t} else s.overwritten)
  }

  function TasksOf(plan: Plan, p: ProjectId): set<TaskId> {
    set t | t in plan.rows && plan.rows[t].project == p
  }

  /** The completion handlers run in order: the task becomes deployed, then, if the project
      asked for it, an auto-dispatch handler wakes. */
  function Deploy(s: State, r: RequestId, h: nat): (z: State)
    requires WellFormed(s) && r in s.requests
    ensures WellFormed(z) && z.plan == s.plan && z.auto == s.auto
  {
    var t := s.requests[r].task;
    var p := ProjectOf(s, r);
    var done := Write(s, t, Deployed).(
      requests := s.requests[r := s.requests[r].(outcome := Completed)],
      everDeployed := s.everDeployed + {t});
    if p !in s.auto then done
    else done.(handlers := s.handlers[h := Handler(p, Woken)], unattended := s.unattended - TasksOf(s.plan, p))
  }

  function Stop(s: State, r: RequestId, final: Status): (z: State)
    requires WellFormed(s) && r in s.requests
    ensures WellFormed(z) && z.plan == s.plan && z.auto == s.auto
  {
    Write(s, s.requests[r].task, final).(requests := s.requests[r := s.requests[r].(outcome := Ended)])
  }

  function Resume(s: State, r: RequestId): (z: State)
    requires WellFormed(s) && r in s.requests
    ensures WellFormed(z) && z.plan == s.plan && z.auto == s.auto
  {
    Write(s, s.requests[r].task, Dispatched).(requests := s.requests[r := s.requests[r].(outcome := Open)])
  }

  function Move(s: State, h: nat, ph: Phase): State
    requires h in s.handlers
  {
    s.(handlers := s.handlers[h := s.handlers[h].(phase := ph)])
  }

  /** Some handler has submitted the task and not marked it yet. */
  predicate BeingMarked(s: State, t: TaskId) {
    exists h :: h in s.handlers && s.handlers[h].phase.Marking? && s.handlers[h].phase.task == t
  }

  function Snapshot(s: State, p: ProjectId, t: TaskId): Firing
    requires WellFormed(s) && t in s.plan.rows
  {
    Firing(t, s.status[t] == Backlog, BeingMarked(s, t), t in s.markFailed,
           DepsDeployed(s.plan, s.status, p, t), s.everDeployed, s.overwritten)
  }

  /** Submits the head of the list: a request opens, the status stays. A refused task is left unattended. */
  function Submit(s: State, h: nat, r: RequestId, accepted: bool): (z: State)
    requires WellFormed(s) && h in s.handlers && s.handlers[h].phase.Dispatching?
    requires s.handlers[h].phase.todo != [] ==> s.handlers[h].phase.todo[0] in s.plan.rows
    ensures WellFormed(z) && z.plan == s.plan && z.auto == s.auto
  {
    var todo := s.handlers[h].phase.todo;
    if todo == [] then s.(handlers := s.handlers - {h})
    else if accepted then
      Move(s, h, Marking(todo[0], r, todo[1..])).(
        requests := s.requests[r := Request(todo[0], Open)],
        log := s.log + [Snapshot(s, s.handlers[h].project, todo[0])])
    else
      Move(s, h, Dispatching(todo[1..])).(unattended := s.unattended + {todo[0]})
  }

  /** Marks the submitted task dispatched, whatever its status is by now; the write may fail. */
  function MarkDispatched(s: State, h: nat, written: bool): (z: State)
    requires WellFormed(s) && h in s.handlers && s.handlers[h].phase.Marking? && s.handlers[h].phase.task in s.plan.rows
    ensures WellFormed(z) && z.plan == s.plan && z.auto == s.auto
  {
    var Marking(t, _, todo) := s.handlers[h].phase;
    var moved := Move(s, h, Dispatching(todo));
    if written then Write(moved, t, Dispatched)
    else moved.(markFailed := s.markFailed + {t}, unattended := s.unattended + {t})
  }

  /** The handler ends without having dispatched anything. */
  function Drop(s: State, h: nat): (z: State)
    requires WellFormed(s) && h in s.handlers
    ensures WellFormed(z) && z.plan == s.plan && z.auto == s.auto
  {
    s.(handlers := s.handlers - {h}, unattended := s.unattended + TasksOf(s.plan, s.handlers[h].project))
  }

  function Recheck(s: State, h: nat): (z: State)
    requires WellFormed(s) && h in s.handlers && s.handlers[h].phase.Checking?
    ensures WellFormed(z) && z.plan == s.plan && z.auto == s.auto
  {
    var hd := s.handlers[h];
    var Checking(unchecked, kept) := hd.phase;
    if unchecked == [] then s.(handlers := s.handlers[h := hd.(phase := Dispatching(kept))])
    else
      var t := unchecked[0];
      var keep := t in s.plan.rows && s.status[t] == Backlog && s.plan.rows[t].list == Finalized;
      s.(handlers := s.handlers[h := hd.(phase := Checking(unchecked[1..], if keep then kept + [t] else kept))])
  }

  function Note(s: State, r: RequestId, stage: Status): (z: State)
    requires WellFormed(s) && r in s.requests
    ensures WellFormed(z) && z.plan == s.plan && z.auto == s.auto
  {
    Write(s, s.requests[r].task, stage)
  }

  function ReadReady(s: State, h: nat): (z: State)
    requires WellFormed(s) && h in s.handlers
    ensures WellFormed(z) && z.plan == s.plan && z.auto == s.auto
  {
    var hd := s.handlers[h];
    s.(handlers := s.handlers[h := hd.(phase := Checking(ReadyList(s.plan, s.status, hd.project), []))])
  }

  function Apply(s: State, a: Step): (z: State)
    requires WellFormed(s) && Enabled(s, a)
    ensures WellFormed(z) && z.plan == s.plan && z.auto == s.auto
  {
    match a
    case Report(r, stage) => Note(s, r, stage)
    case Complete(r, h) => Deploy(s, r, h)
    case End(r, final) => Stop(s, r, final)
    case Reopen(r) => Resume(s, r)
    case Read(h) => ReadReady(s, h)
    case Check(h) => Recheck(s, h)
    case Abandon(h) => Drop(s, h)
    case Fire(h, r, accepted) => Submit(s, h, r, accepted)
    case Mark(h, written) => MarkDispatched(s, h, written)
  }

  /** The task whose status the step writes, if any. */
  function Touched(s: State, a: Step): set<TaskId>
    requires WellFormed(s) && Enabled(s, a)
  {
    match a
    case Report(r, _) => {s.requests[r].task}
    case Complete(r, _) => {s.requests[r].task}
    case End(r, _) => {s.requests[r].task}
    case Reopen(r) => {s.requests[r].task}
    case Mark(h, written) => if written then {s.handlers[h].phase.task} else {}
    case _ => {}
  }

  /** The task that the step submits, if any. */
  function Submitted(s: State, a: Step): set<TaskId>
    requires WellFormed(s) && Enabled(s, a)
  {
    match a
    case Fire(h, _, accepted) => var todo := s.handlers[h].phase.todo; if accepted && todo != [] then {todo[0]} else {}
    case _ => {}
  }

  ghost predicate Next(s: State, a: Step, z: State) {
    WellFormed(s) && Enabled(s, a) && z == Apply(s, a)
  }

  /** The step is an event of a request. */
  predicate RequestStep(a: Step) {
    a.Report? || a.Complete? || a.End? || a.Reopen?
  }

  /** A step writes one status at most, and never the backlog. */
  lemma StatusFrame(s: State, a: Step, z: State, t: TaskId)
    requires Next(s, a, z) && t in s.status
    ensures t !in Touched(s, a) ==> z.status[t] == s.status[t]
    ensures t in Touched(s, a) ==> z.status[t] != Backlog
  {
  }

  /** A deployed status that is overwritten is remembered until it is written again. */
  lemma OverwrittenFrame(s: State, a: Step, z: State, t: TaskId)
    requires Next(s, a, z) && t in s.status
    ensures t !in Touched(s, a) ==> (t in z.overwritten <==> t in s.overwritten)
    ensures t in Touched(s, a) ==>
              (t in z.overwritten <==> z.status[t] != Deployed && (t in s.overwritten || s.status[t] == Deployed))
  {
    if RequestStep(a) { RequestOverwrites(s, a, z, t); }
  }

  lemma RequestOverwrites(s: State, a: Step, z: State, t: TaskId)
    requires Next(s, a, z) && t in s.status && RequestStep(a)
    ensures t !in Touched(s, a) ==> (t in z.overwritten <==> t in s.overwritten)
    ensures t in Touched(s, a) ==>
              (t in z.overwritten <==> z.status[t] != Deployed && (t in s.overwritten || s.status[t] == Deployed))
  {
  }

  /** Requests are never dropped or re-pointed; a new one is open and belongs to the submitted task. */
  lemma RequestFrame(s: State, a: Step, z: State, r: RequestId)
    requires Next(s, a, z)
    ensures r in s.requests ==> r in z.requests && z.requests[r].task == s.requests[r].task
    ensures r in z.requests && r !in s.requests ==>
              a.Fire? && a.r == r && Submitted(s, a) == {z.requests[r].task} && z.requests[r].outcome == Open
  {
    RequestsFrame(s, a, z);
  }

  /** Only four kinds of steps change requests, each one of them. */
  lemma RequestsFrame(s: State, a: Step, z: State)
    requires Next(s, a, z)
    ensures z.requests == match a
                          case Complete(r, _) => s.requests[r := s.requests[r].(outcome := Completed)]
                          case End(r, _) => s.requests[r := s.requests[r].(outcome := Ended)]
                          case Reopen(r) => s.requests[r := s.requests[r].(outcome := Open)]
                          case Fire(h, r, _) => if Submitted(s, a) == {} then s.requests
                                                else s.requests[r := Request(s.handlers[h].phase.todo[0], Open)]
                          case _ => s.requests
  {
    match a
    case Report(_, _) =>
    case Complete(_, _) =>
    case End(_, _) =>
    case Reopen(_) =>
    case Read(_) =>
    case Check(_) =>
    case Abandon(_) =>
    case Fire(_, _, _) =>
    case Mark(_, _) =>
  }

  /** A task becomes deployed only when a request of it completes. */
  lemma DeployedFrame(s: State, a: Step, z: State, t: TaskId)
    requires Next(s, a, z)
    ensures t in s.everDeployed ==> t in z.everDeployed
    ensures t in s.status && z.status[t] == Deployed ==> s.status[t] == Deployed || t in z.everDeployed
    ensures t in z.everDeployed && t !in s.everDeployed ==>
              a.Complete? && s.requests[a.r].task == t
  {
    if !a.Complete? { OthersDeployNothing(s, a, z, t); }
  }

  lemma OthersDeployNothing(s: State, a: Step, z: State, t: TaskId)
    requires Next(s, a, z) && !a.Complete?
    ensures z.everDeployed == s.everDeployed && (t in s.status && z.status[t] == Deployed ==> s.status[t] == Deployed)
  {
    if a.Mark? { MarkDeploysNothing(s, a, z, t); }
  }

  lemma MarkDeploysNothing(s: State, a: Step, z: State, t: TaskId)
    requires Next(s, a, z) && a.Mark?
    ensures z.everDeployed == s.everDeployed && (t in s.status && z.status[t] == Deployed ==> s.status[t] == Deployed)
  {
  }

  /** Outcomes change by the events that say so; what has completed stays completed. */
  lemma OutcomeFrame(s: State, a: Step, z: State, r: RequestId)
    requires Next(s, a, z) && r in s.requests
    ensures r in z.requests
    ensures z.requests[r].outcome == Open && s.requests[r].outcome != Open ==>
              a == Reopen(r) && s.requests[r].outcome == Ended
    ensures z.requests[r].outcome != s.requests[r].outcome ==> (a.Complete? || a.End? || a.Reopen?) && a.r == r
    ensures s.requests[r].outcome == Ended && a != Reopen(r) ==> z.requests[r].outcome == Ended
  {
    RequestsFrame(s, a, z);
  }

  /** Only a completion writes "deployed", and it closes the request it belongs to. */
  lemma DeployingFrame(s: State, a: Step, z: State, t: TaskId)
    requires Next(s, a, z) && t in Touched(s, a) && t in s.status && z.status[t] == Deployed
    ensures a.Complete? && s.requests[a.r].task == t && a.r in z.requests && z.requests[a.r].outcome == Completed
  {
  }

  /** What the step makes of the handler it names. */
  function Moved(s: State, a: Step): Option<Phase>
    requires WellFormed(s) && Enabled(s, a) && (a.Read? || a.Check? || a.Abandon? || a.Fire? || a.Mark?)
  {
    var ph := s.handlers[a.h].phase;
    match a
    case Read(h) => Some(Checking(ReadyList(s.plan, s.status, s.handlers[h].project), []))
    case Check(h) => Some(Recheck(s, h).handlers[h].phase)
    case Abandon(_) => None
    case Fire(_, r, accepted) =>
      if ph.todo == [] then None
      else if accepted then Some(Marking(ph.todo[0], r, ph.todo[1..])) else Some(Dispatching(ph.todo[1..]))
    case Mark(_, _) => Some(Dispatching(ph.todo))
  }

  /** A step moves at most the handler it names; a new one starts by reading. */
  lemma HandlersFrame(s: State, a: Step, z: State)
    requires Next(s, a, z)
    ensures z.handlers == match a
                          case Report(_, _) => s.handlers
                          case End(_, _) => s.handlers
                          case Reopen(_) => s.handlers
                          case Complete(r, h) =>
                            if ProjectOf(s, r) in s.auto then s.handlers[h := Handler(ProjectOf(s, r), Woken)]
                            else s.handlers
                          case _ => match Moved(s, a)
                                    case None => s.handlers - {a.h}
                                    case Some(ph) => s.handlers[a.h := s.handlers[a.h].(phase := ph)]
  {
  }

  lemma HandlerFrame(s: State, a: Step, z: State, h: nat)
    requires Next(s, a, z) && h in z.handlers
    ensures h in s.handlers ==> z.handlers[h].project == s.handlers[h].project
    ensures h in s.handlers ==> z.handlers[h] == s.handlers[h] || (!RequestStep(a) && a.h == h)
    ensures h !in s.handlers ==> a.Complete? && a.h == h && z.handlers[h] == Handler(ProjectOf(s, a.r), Woken)
  {
    if !RequestStep(a) {
      MovedHandlerFrame(s, a, z, h);
    } else {
      HandlersFrame(s, a, z);
    }
  }

  lemma MovedHandlerFrame(s: State, a: Step, z: State, h: nat)
    requires Next(s, a, z) && h in z.handlers && !RequestStep(a)
    ensures h in s.handlers && z.handlers[h].project == s.handlers[h].project
    ensures a.h != h ==> z.handlers[h] == s.handlers[h]
  {
    HandlersFrame(s, a, z);
  }

  /** A handler marks a task only after submitting it in the step before. */
  lemma MarkingFrame(s: State, a: Step, z: State, h: nat)
    requires Next(s, a, z) && h in z.handlers && z.handlers[h].phase.Marking?
    ensures h in s.handlers
    ensures s.handlers[h] == z.handlers[h] ||
            (a.Fire? && a.h == h && a.r == z.handlers[h].phase.request && Submitted(s, a) == {z.handlers[h].phase.task})
  {
    HandlersFrame(s, a, z);
  }

  /** The tasks a handler has yet to submit. */
  ghost predicate Names(ph: Phase, t: TaskId) {
    match ph
    case Woken => false
    case Checking(unchecked, kept) => t in unchecked || t in kept
    case Dispatching(todo) => t in todo
    case Marking(_, _, todo) => t in todo
  }

  /** A handler comes to hold a task only by reading it from the ready set. */
  lemma NamesFrame(s: State, a: Step, z: State, h: nat, t: TaskId)
    requires Next(s, a, z)
    requires h in z.handlers && Names(z.handlers[h].phase, t)
    ensures h in s.handlers && z.handlers[h].project == s.handlers[h].project
    ensures Names(s.handlers[h].phase, t) || (a == Read(h) && Ready(s.plan, s.status, s.handlers[h].project, t))
  {
    HandlersFrame(s, a, z);
  }

  /** What a step submits is named by its handler, and one entry of the log tells what was true before. */
  lemma LogFrame(s: State, a: Step, z: State)
    requires Next(s, a, z)
    ensures Submitted(s, a) == {} ==> z.log == s.log
    ensures Submitted(s, a) != {} ==>
              && a.Fire? && s.handlers[a.h].phase.todo != []
              && Submitted(s, a) == {s.handlers[a.h].phase.todo[0]}
              && Names(s.handlers[a.h].phase, s.handlers[a.h].phase.todo[0])
              && z.log == s.log + [Snapshot(s, s.handlers[a.h].project, s.handlers[a.h].phase.todo[0])]
  {
  }

  /** `acts` is a possible run from `s` and ends in `z`. */
  ghost predicate Runs(s: State, acts: seq<Step>, z: State)
    decreases |acts|
  {
    WellFormed(s) &&
    if acts == [] then z == s
    else Enabled(s, acts[0]) && Runs(Apply(s, acts[0]), acts[1..], z)
  }

  /** No handler runs, nothing was submitted by the cascade, backlog tasks have no request, a task
      in flight has an open one, and tasks that start out ready are known to be unattended. */
  ghost predicate Start(s: State) {
    && WellFormed(s)
    && s.handlers == map[]
    && s.log == [] && s.overwritten == {} && s.markFailed == {}
    && (forall r :: r in s.requests ==> s.status[s.requests[r].task] != Backlog)
    && (forall t :: t in s.status && IsInFlight(s.status[t]) ==> HasOpenRequest(s, t))
    && s.everDeployed == (set t | t in s.status && s.status[t] == Deployed)
    && (forall p, t :: p in s.auto && Ready(s.plan, s.status, p, t) ==> t in s.unattended)
  }

  ghost predicate HasOpenRequest(s: State, t: TaskId) {
    exists r :: r in s.requests && s.requests[r].task == t && s.requests[r].outcome == Open
  }

  /** No request completes, fails or is cancelled before its task is marked. */
  ghost predicate EndsAreMarked(s: State, acts: seq<Step>)
    requires WellFormed(s)
    decreases |acts|
  {
    acts != [] ==>
      && Enabled(s, acts[0])
      && (acts[0].Complete? || acts[0].End? ==> !Unmarked(s, acts[0].r))
      && EndsAreMarked(Apply(s, acts[0]), acts[1..])
  }

  /** No submission is refused, no mark fails, no handler is abandoned. */
  ghost predicate Undisturbed(acts: seq<Step>) {
    forall k :: 0 <= k < |acts| ==> Smooth(acts[k])
  }

  predicate Smooth(a: Step) {
    !a.Abandon? && (a.Fire? ==> a.accepted) && (a.Mark? ==> a.written)
  }
}
