/** The supervisor process over a whole life: commits arriving at any time, kills at any point,
    startup cleanup, polls, and polls abandoned by an exception that the main loop swallows. */
module SupervisorRuns {
  import opened Common
  import opened SupervisorModel

  datatype Phase =
    | Down
    | Cleaning(todo: seq<DeploymentId>)
    | Idle
    | Listing(todo: seq<DeploymentId>, picked: seq<DeploymentId>)
    | Polling(queue: seq<DeploymentId>)
    | Deploying(id: DeploymentId, rest: seq<Update>, queue: seq<DeploymentId>)

  /** `order` lists the rows by start time. History: `listed` is the snapshot of the last poll,
      `stranded` the rows that an abandoned pass left for later. */
  datatype System = System(
    rows: map<DeploymentId, Row>, order: seq<DeploymentId>, phase: Phase,
    listed: seq<DeploymentId>, stranded: set<DeploymentId>)

  datatype Action =
    | Commit(id: DeploymentId, recorded: nat, broke: bool, project: string)
    | Kill
    | Restart
    | CleanOne
    | Ready
    | Poll
    | LookAtOne
    | Begin(world: World)
    | WriteOne
    | Raise

  /** The rows in one of the given steps, in start order. */
  function InSteps(rows: map<DeploymentId, Row>, ids: seq<DeploymentId>, which: Step -> bool): (r: seq<DeploymentId>)
    requires forall id :: id in ids ==> id in rows
    ensures forall id :: id in r <==> id in ids && which(rows[id].step)
  {
    if ids == [] then []
    else (if which(rows[ids[0]].step) then [ids[0]] else []) + InSteps(rows, ids[1..], which)
  }

  lemma {:induction false} InStepsDistinct(rows: map<DeploymentId, Row>, ids: seq<DeploymentId>, which: Step -> bool)
    requires (forall id :: id in ids ==> id in rows) && Distinct(ids)
    ensures Distinct(InSteps(rows, ids, which))
  {
    if ids != [] {
      var rest := InSteps(rows, ids[1..], which);
      TailDistinct(ids);
      InStepsDistinct(rows, ids[1..], which);
      PrependDistinct(ids[0], rest);
      assert [] + rest == rest;
    }
  }

  lemma InStepsHead(rows: map<DeploymentId, Row>, ids: seq<DeploymentId>, which: Step -> bool)
    requires ids != [] && forall id :: id in ids ==> id in rows
    ensures InSteps(rows, ids, which) ==
              (if which(rows[ids[0]].step) then [ids[0]] else []) + InSteps(rows, ids[1..], which)
  {
  }

  /** The rows keep the start order. */
  lemma {:induction false} InStepsInOrder(rows: map<DeploymentId, Row>, a: seq<DeploymentId>, b: seq<DeploymentId>,
                                          which: Step -> bool)
    requires forall id :: id in a + b ==> id in rows
    ensures (forall id :: id in a ==> id in rows) && (forall id :: id in b ==> id in rows)
    ensures InSteps(rows, a + b, which) == InSteps(rows, a, which) + InSteps(rows, b, which)
  {
    if a == [] {
      assert a + b == b;
    } else {
      var first := if which(rows[a[0]].step) then [a[0]] else [];
      InStepsInOrder(rows, a[1..], b, which);
      InStepsHead(rows, a, which);
      HeadFirst(a, b);
      InStepsHead(rows, a + b, which);
      Assoc(first, InSteps(rows, a[1..], which), InSteps(rows, b, which));
    }
  }

  const CLEANUP: Update := Update(Failed, true)

  /** What the current pass still has to deal with. */
  function Ahead(p: Phase): set<DeploymentId> {
    match p
    case Down => {}
    case Cleaning(todo) => set id | id in todo
    case Idle => {}
    case Listing(todo, picked) => (set id | id in todo) + set id | id in picked
    case Polling(queue) => set id | id in queue
    case Deploying(id, _, queue) => {id} + set j | j in queue
  }

  predicate WellFormed(s: System) {
    && Distinct(s.order)
    && (forall id :: id in s.order ==> id in s.rows)
    && (forall id :: id in s.rows ==> id in s.order)
    && (forall id :: id in s.listed ==> id in s.rows)
    && (forall id :: id in Ahead(s.phase) ==> id in s.rows)
  }

  predicate Enabled(s: System, a: Action) {
    match a
    case Commit(id, recorded, broke, _) => id !in s.rows && recorded <= 2 && (!broke ==> recorded == 2)
    case Kill => true
    case Restart => s.phase.Down?
    case CleanOne => s.phase.Cleaning? && s.phase.todo != []
    case Ready => s.phase == Cleaning([])
    case Poll => s.phase.Idle?
    case LookAtOne => s.phase.Listing?
    case Begin(_) => s.phase.Polling?
    case WriteOne => s.phase.Deploying?
    case Raise => !s.phase.Down? && !s.phase.Idle?
  }

  function Apply(s: System, a: Action): System
    requires WellFormed(s) && Enabled(s, a)
  {
    match a
    case Commit(id, recorded, broke, project) =>
      s.(rows := s.rows[id := CommitRow(recorded, broke, project)], order := s.order + [id])
    case Kill => s.(phase := Down)
    case Restart => s.(phase := Cleaning(InSteps(s.rows, s.order, InFlight)), listed := [], stranded := {})
    case CleanOne =>
      var id := s.phase.todo[0];
      s.(rows := s.rows[id := Write(s.rows[id], CLEANUP)], phase := Cleaning(s.phase.todo[1..]))
    case Ready => s.(phase := Idle)
    case Poll =>
      var found := InSteps(s.rows, s.order, Committed);
      s.(phase := Listing(found, []), listed := found, stranded := s.stranded - set id | id in found)
    case LookAtOne =>
      if s.phase.todo == [] then s.(phase := Polling(s.phase.picked))
      else
        var id, rest := s.phase.todo[0], s.phase.todo[1..];
        if s.rows[id].project != "" then
          s.(rows := s.rows[id := MarkSkipped(s.rows[id])], phase := Listing(rest, s.phase.picked))
        else s.(phase := Listing(rest, s.phase.picked + [id]))
    case Begin(w) =>
      if s.phase.queue == [] then s.(phase := Idle)
      else s.(phase := Deploying(s.phase.queue[0], DeployScript(w), s.phase.queue[1..]))
    case WriteOne =>
      var Deploying(id, rest, queue) := s.phase;
      if rest == [] then s.(phase := Polling(queue))
      else s.(rows := s.rows[id := Write(s.rows[id], rest[0])], phase := Deploying(id, rest[1..], queue))
    case Raise => s.(phase := Idle, stranded := s.stranded + Ahead(s.phase))
  }

  ghost predicate Next(s: System, a: Action, z: System) {
    WellFormed(s) && Enabled(s, a) && z == Apply(s, a)
  }

  ghost predicate Runs(s: System, acts: seq<Action>, z: System)
    decreases |acts|
  {
    WellFormed(s) &&
    if acts == [] then z == s
    else Enabled(s, acts[0]) && Runs(Apply(s, acts[0]), acts[1..], z)
  }

  ghost predicate Fresh(s: System) {
    s == System(map[], [], Down, [], {})
  }

  // -------- the invariant --------

  predicate RowFine(r: Row) {
    RowOk(r) && (r.step == CodeCommitted || InFlight(r.step) || Resting(r.step))
  }

  /** Every row is well formed and never in any step other than committed, in flight or resting. */
  ghost predicate RowsOk(s: System) {
    forall id :: id in s.rows ==> RowFine(s.rows[id])
  }

  predicate PhaseOk(s: System)
    requires WellFormed(s)
  {
    match s.phase
    case Down => true
    case Idle => true
    case Cleaning(todo) => Distinct(todo) && forall id :: id in todo ==> InFlight(s.rows[id].step)
    case Listing(todo, picked) =>
      && Distinct(todo) && Distinct(picked) && (forall id :: id in todo ==> id !in picked)
      && (forall id :: id in todo ==> s.rows[id].step == CodeCommitted)
      && (forall id :: id in picked ==> s.rows[id].step == CodeCommitted)
    case Polling(queue) => Distinct(queue) && forall id :: id in queue ==> s.rows[id].step == CodeCommitted
    case Deploying(id, rest, queue) =>
      && Distinct(queue) && id !in queue
      && (forall j :: j in queue ==> s.rows[j].step == CodeCommitted)
      && Proper(rest)
      && (if rest == [] then Resting(s.rows[id].step)
          else !Finishing(s.rows[id].step))
  }

  /** A row in flight belongs to the pass that is working, or was left by an abandoned one. */
  predicate NobodyLost(s: System) {
    !s.phase.Down? ==>
      forall id :: id in s.rows && InFlight(s.rows[id].step) ==> id in Ahead(s.phase) || id in s.stranded
  }

  /** A listed row still committed is ahead of the poll, or was left by an abandoned one. */
  predicate ListedServed(s: System) {
    && (s.phase.Cleaning? ==> s.listed == [] && s.stranded == {})
    && (!s.phase.Down? && !s.phase.Cleaning? ==>
      forall id :: id in s.listed && id in s.rows && s.rows[id].step == CodeCommitted ==>
        id in Ahead(s.phase) || id in s.stranded)
  }

  ghost predicate Inv(s: System) {
    WellFormed(s) && RowsOk(s) && PhaseOk(s) && NobodyLost(s) && ListedServed(s)
  }

  lemma KeepsWellFormed(s: System, a: Action, z: System)
    requires Next(s, a, z)
    ensures WellFormed(z)
  {
    KeepsOrder(s, a, z);
    forall id | id in Ahead(z.phase) ensures id in s.rows { AheadFrame(s, a, z, id); }
    assert forall id :: id in z.listed ==> id in s.rows;
  }

  /** What is ahead of a pass was ahead before, or was found in the table by the step. */
  lemma AheadFrame(s: System, a: Action, z: System, id: DeploymentId)
    requires Next(s, a, z) && id in Ahead(z.phase)
    ensures id in Ahead(s.phase) || id in s.order
  {
  }

  lemma KeepsOrder(s: System, a: Action, z: System)
    requires Next(s, a, z)
    ensures Distinct(z.order)
    ensures forall id :: id in z.order <==> id in z.rows
    ensures forall id :: id in s.rows ==> id in z.rows
  {
    if a.Commit? { AppendDistinct(s.order, a.id); }
  }

  /** What one step does to one row: nothing, or one of four writes. */
  lemma RowFrame(s: System, a: Action, z: System, id: DeploymentId)
    requires Next(s, a, z)
    ensures id in s.rows ==> id in z.rows
    ensures id in z.rows && id !in s.rows ==> a.Commit? && z.rows[id] == CommitRow(a.recorded, a.broke, a.project)
    ensures id in s.rows && z.rows[id] != s.rows[id] ==>
              || (a.CleanOne? && id == s.phase.todo[0] && z.rows[id] == Write(s.rows[id], CLEANUP))
              || (a.LookAtOne? && s.phase.todo != [] && id == s.phase.todo[0] && s.rows[id].project != ""
                  && z.rows[id] == MarkSkipped(s.rows[id]))
              || (a.WriteOne? && id == s.phase.id && s.phase.rest != []
                  && z.rows[id] == Write(s.rows[id], s.phase.rest[0]))
  {
  }

  lemma WriteKeepsOk(r: Row, u: Update)
    requires RowFine(r) && !Finishing(r.step) && Shown(u) != Skipped && (InFlight(Shown(u)) || Resting(Shown(u)))
    ensures RowFine(Write(r, u))
  {
  }

  lemma SkipKeepsOk(r: Row)
    requires RowFine(r)
    ensures RowFine(MarkSkipped(r))
  {
  }

  lemma CommitIsOk(recorded: nat, broke: bool, project: string)
    requires recorded <= 2 && (!broke ==> recorded == 2)
    ensures RowFine(CommitRow(recorded, broke, project))
  {
  }

  lemma RowsStep(s: System, a: Action, z: System)
    requires Next(s, a, z) && Inv(s)
    ensures RowsOk(z)
  {
    forall id | id in z.rows ensures RowFine(z.rows[id]) {
      RowFrame(s, a, z, id);
      if id !in s.rows {
        CommitIsOk(a.recorded, a.broke, a.project);
      } else if z.rows[id] != s.rows[id] {
        if a.CleanOne? {
          WriteKeepsOk(s.rows[id], CLEANUP);
        } else if a.LookAtOne? {
          SkipKeepsOk(s.rows[id]);
        } else {
          WriteKeepsOk(s.rows[id], s.phase.rest[0]);
        }
      }
    }
  }

  lemma ProperTail(us: seq<Update>)
    requires Proper(us) && us != []
    ensures Proper(us[1..])
    ensures us[1..] == [] ==> Resting(Shown(us[0]))
    ensures us[1..] != [] ==> !Finishing(Shown(us[0]))
  {
    var t := us[1..];
    assert forall i :: 0 <= i < |t| ==> t[i] == us[i + 1];
  }

  lemma PhaseStep(s: System, a: Action, z: System)
    requires Next(s, a, z) && Inv(s)
    ensures WellFormed(z) && PhaseOk(z)
  {
    KeepsWellFormed(s, a, z);
    match a
    case Commit(_, _, _, _) =>
    case Kill =>
    case Restart => InStepsDistinct(s.rows, s.order, InFlight);
    case CleanOne => TailDistinct(s.phase.todo);
    case Ready =>
    case Poll => InStepsDistinct(s.rows, s.order, Committed);
    case LookAtOne => LookPhase(s, z);
    case Begin(w) => BeginPhase(s, w, z);
    case WriteOne => WritePhase(s, z);
    case Raise =>
  }

  lemma BeginPhase(s: System, w: World, z: System)
    requires Next(s, Begin(w), z) && Inv(s) && WellFormed(z)
    ensures PhaseOk(z)
  {
    if s.phase.queue != [] {
      ScriptIsProper(w);
      TailDistinct(s.phase.queue);
    }
  }

  lemma WritePhase(s: System, z: System)
    requires Next(s, WriteOne, z) && Inv(s) && WellFormed(z)
    ensures PhaseOk(z)
  {
    if s.phase.rest != [] { ProperTail(s.phase.rest); }
  }

  lemma LookPhase(s: System, z: System)
    requires Next(s, LookAtOne, z) && Inv(s) && WellFormed(z)
    ensures PhaseOk(z)
  {
    if s.phase.todo != [] {
      var id, rest, picked := s.phase.todo[0], s.phase.todo[1..], s.phase.picked;
      TailDistinct(s.phase.todo);
      if s.rows[id].project == "" {
        AppendDistinct(picked, id);
        assert z.phase.picked == picked + [id];
      } else {
        assert forall j :: j in rest || j in picked ==> z.rows[j] == s.rows[j];
      }
    }
  }

  lemma NobodyStep(s: System, a: Action, z: System)
    requires Next(s, a, z) && Inv(s)
    ensures NobodyLost(z)
  {
    if !z.phase.Down? {
      forall id | id in z.rows && InFlight(z.rows[id].step) ensures id in Ahead(z.phase) || id in z.stranded {
        if a.WriteOne? || a.CleanOne? || a.LookAtOne? {
          WorkedOn(s, a, z, id);
        } else {
          LeftAlone(s, a, z, id);
        }
      }
    }
  }

  lemma WorkedOn(s: System, a: Action, z: System, id: DeploymentId)
    requires Next(s, a, z) && Inv(s) && (a.WriteOne? || a.CleanOne? || a.LookAtOne?)
    requires id in z.rows && InFlight(z.rows[id].step)
    ensures id in Ahead(z.phase) || id in z.stranded
  {
    RowFrame(s, a, z, id);
    if a.CleanOne? || (a.LookAtOne? && s.phase.todo != []) { TailDistinct(s.phase.todo); }
  }

  lemma LeftAlone(s: System, a: Action, z: System, id: DeploymentId)
    requires Next(s, a, z) && Inv(s) && !a.WriteOne? && !a.CleanOne? && !a.LookAtOne? && !z.phase.Down?
    requires id in z.rows && InFlight(z.rows[id].step)
    ensures id in Ahead(z.phase) || id in z.stranded
  {
    RowFrame(s, a, z, id);
  }

  lemma ListedStep(s: System, a: Action, z: System)
    requires Next(s, a, z) && Inv(s)
    ensures ListedServed(z)
  {
    if !z.phase.Down? && !z.phase.Cleaning? {
      forall id | id in z.listed && id in z.rows && z.rows[id].step == CodeCommitted
        ensures id in Ahead(z.phase) || id in z.stranded
      {
        ListedRow(s, a, z, id);
      }
    }
  }

  lemma ListedRow(s: System, a: Action, z: System, id: DeploymentId)
    requires Next(s, a, z) && Inv(s) && !z.phase.Down? && !z.phase.Cleaning?
    requires id in z.listed && id in z.rows && z.rows[id].step == CodeCommitted
    ensures id in Ahead(z.phase) || id in z.stranded
  {
    if a.Poll? {
      assert id in z.phase.todo;
    } else if a.WriteOne? {
      ListedAfterWrite(s, z, id);
    } else if a.LookAtOne? {
      ListedAfterLook(s, z, id);
    } else {
      ListedOtherwise(s, a, z, id);
    }
  }

  lemma ListedAfterWrite(s: System, z: System, id: DeploymentId)
    requires Next(s, WriteOne, z) && Inv(s) && id in z.listed && id in z.rows && z.rows[id].step == CodeCommitted
    ensures id in Ahead(z.phase) || id in z.stranded
  {
    RowFrame(s, WriteOne, z, id);
    if s.phase.rest != [] { assert Shown(s.phase.rest[0]) != CodeCommitted; }
  }

  lemma ListedAfterLook(s: System, z: System, id: DeploymentId)
    requires Next(s, LookAtOne, z) && Inv(s) && id in z.listed && id in z.rows && z.rows[id].step == CodeCommitted
    ensures id in Ahead(z.phase) || id in z.stranded
  {
    RowFrame(s, LookAtOne, z, id);
    if s.phase.todo != [] { TailDistinct(s.phase.todo); }
  }

  lemma ListedOtherwise(s: System, a: Action, z: System, id: DeploymentId)
    requires Next(s, a, z) && Inv(s) && !a.Poll? && !a.WriteOne? && !a.LookAtOne? && !z.phase.Down?
    requires !z.phase.Cleaning?
    requires id in z.listed && id in z.rows && z.rows[id].step == CodeCommitted
    ensures id in Ahead(z.phase) || id in z.stranded
  {
    RowFrame(s, a, z, id);
  }

  lemma StepKeeps(s: System, a: Action, z: System)
    requires Next(s, a, z) && Inv(s)
    ensures Inv(z)
  {
    KeepsWellFormed(s, a, z);
    RowsStep(s, a, z);
    PhaseStep(s, a, z);
    NobodyStep(s, a, z);
    ListedStep(s, a, z);
  }

  lemma {:induction false} RunKeeps(s: System, acts: seq<Action>, z: System)
    requires Inv(s) && Runs(s, acts, z)
    ensures Inv(z)
    decreases |acts|
  {
    if acts != [] {
      StepKeeps(s, acts[0], Apply(s, acts[0]));
      RunKeeps(Apply(s, acts[0]), acts[1..], z);
    }
  }
}
