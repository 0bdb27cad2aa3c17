/** Pieces of concrete runs: three tasks in a line, each waiting for the one before it, and a fourth that
    stands alone. */
module CascadeScripts {
  import opened Common
  import opened CascadeModel

  /** Four tasks of a project, and requests of the first and of the last. */
  datatype Line = Line(a: TaskId, b: TaskId, c: TaskId, x: TaskId, p: ProjectId, ra: RequestId, rx: RequestId)

  predicate Four(l: Line) {
    l.a != l.b && l.b != l.c && l.a != l.c && l.x != l.a && l.x != l.b && l.x != l.c
  }

  /** `b` waits for `a`, `c` waits for `b`, and `x` for nothing; all finalized. */
  predicate IsLine(plan: Plan, l: Line) {
    && Four(l) && (forall t :: t in plan.rows ==> t == l.a || t == l.b || t == l.c || t == l.x)
    && l.a in plan.rows && plan.rows[l.a] == Row(l.p, 1, Finalized, [])
    && l.b in plan.rows && plan.rows[l.b] == Row(l.p, 1, Finalized, [l.a])
    && l.c in plan.rows && plan.rows[l.c] == Row(l.p, 1, Finalized, [l.b])
    && l.x in plan.rows && plan.rows[l.x] == Row(l.p, 1, Finalized, [])
  }

  lemma {:induction false} OneVersion(plan: Plan, ids: seq<TaskId>, p: ProjectId)
    requires forall t :: t in ids ==>
               t in plan.rows && plan.rows[t].project == p && plan.rows[t].version == 1 &&
               plan.rows[t].list == Finalized
    ensures LatestIn(plan, ids, p) == if ids == [] then 0 else 1
  {
    if ids != [] { OneVersion(plan, ids[1..], p); }
  }

  lemma LineIsListed(plan: Plan, l: Line)
    requires ValidPlan(plan) && IsLine(plan, l)
    ensures forall t, q :: Listed(plan, q, t) <==> q == l.p && t in plan.rows
  {
    OneVersion(plan, plan.order, l.p);
    assert l.a in plan.order;
  }

  lemma {:induction false} OneReady(plan: Plan, status: map<TaskId, Status>, p: ProjectId, ids: seq<TaskId>, t: TaskId)
    requires ValidPlan(plan) && status.Keys == plan.rows.Keys
    requires Distinct(ids) && forall u :: u in ids && Ready(plan, status, p, u) ==> u == t
    ensures ReadyIn(plan, status, p, ids) == if t in ids && Ready(plan, status, p, t) then [t] else []
  {
    if ids != [] {
      TailDistinct(ids);
      OneReady(plan, status, p, ids[1..], t);
    }
  }

  /** A board with the line on it, in a project with auto-dispatch on. */
  predicate OnLine(s: State, l: Line) {
    WellFormed(s) && IsLine(s.plan, l) && l.p in s.auto
  }

  predicate Statuses(s: State, l: Line, sa: Status, sb: Status, sc: Status, sx: Status) {
    && l.a in s.status && l.b in s.status && l.c in s.status && l.x in s.status
    && s.status[l.a] == sa && s.status[l.b] == sb && s.status[l.c] == sc && s.status[l.x] == sx
  }

  lemma LineRows(s: State, l: Line)
    requires OnLine(s, l)
    ensures l.a in s.plan.rows && l.b in s.plan.rows && l.c in s.plan.rows && l.x in s.plan.rows && l.p in s.auto
    ensures s.plan.rows[l.a].project == l.p && s.plan.rows[l.b].project == l.p
    ensures s.plan.rows[l.c].project == l.p && s.plan.rows[l.x].project == l.p
    ensures l.b in s.plan.rows[l.c].deps
  {
  }

  /** With `a` deployed and `x` out of the backlog, exactly the first backlog task behind deployed ones is
      ready. */
  lemma ReadyOnLine(s: State, l: Line)
    requires OnLine(s, l) && s.status[l.a] == Deployed && s.status[l.x] != Backlog
    ensures ReadyList(s.plan, s.status, l.p) ==
              if s.status[l.b] == Backlog then [l.b]
              else if s.status[l.b] == Deployed && s.status[l.c] == Backlog then [l.c] else []
  {
    LineIsListed(s.plan, l);
    var t := if s.status[l.b] == Backlog then l.b else l.c;
    assert l.a in s.plan.rows[l.b].deps && l.b in s.plan.rows[l.c].deps;
    OneReady(s.plan, s.status, l.p, s.plan.order, t);
  }

  /** `a` runs under `ra`, `x` under `rx`, and the others wait; nothing else has happened. */
  ghost predicate TwoRunning(s: State, l: Line) {
    && OnLine(s, l) && Statuses(s, l, InProgress, Backlog, Backlog, InProgress)
    && l.ra != l.rx && s.requests == map[l.ra := Request(l.a, Open), l.rx := Request(l.x, Open)]
    && s.handlers == map[] && s.log == [] && s.everDeployed == {} && s.overwritten == {} && s.markFailed == {} &&
       s.unattended == {}
  }

  lemma TwoRunningIsAStart(s: State, l: Line)
    requires TwoRunning(s, l)
    ensures Start(s)
  {
    LineIsListed(s.plan, l);
    assert s.requests[l.ra] == Request(l.a, Open) && s.requests[l.rx] == Request(l.x, Open);
    assert HasOpenRequest(s, l.a) && HasOpenRequest(s, l.x);
    assert l.a in s.plan.rows[l.b].deps && l.b in s.plan.rows[l.c].deps;
  }

  // -------- walks --------

  /** A run, and as history the states it goes through. */
  datatype Walk = Walk(ghost states: seq<State>, acts: seq<Step>)

  ghost predicate Sound(w: Walk) {
    |w.states| == |w.acts| + 1 && WellFormed(w.states[|w.acts|]) && forall i :: 0 <= i < |w.acts| ==> StepAt(w, i)
  }

  ghost predicate StepAt(w: Walk, i: nat) {
    i < |w.acts| && i + 1 < |w.states| && Next(w.states[i], w.acts[i], w.states[i + 1])
  }

  ghost predicate From(w: Walk, s: State, z: State) {
    Sound(w) && w.states[0] == s && w.states[|w.acts|] == z
  }

  /** No request ends along the walk before its task is marked. */
  ghost predicate Marked(w: Walk) {
    forall i :: 0 <= i < |w.acts| ==> MarkedAt(w, i)
  }

  ghost predicate MarkedAt(w: Walk, i: nat) {
    i < |w.acts| && i < |w.states| && (w.acts[i].Complete? || w.acts[i].End? ==> !Unmarked(w.states[i], w.acts[i].r))
  }

  /** Nothing is refused, fails or is abandoned along the walk. */
  ghost predicate Gentle(w: Walk) {
    Undisturbed(w.acts)
  }

  lemma Tail(w: Walk)
    requires Sound(w) && w.acts != []
    ensures var v := Walk(w.states[1..], w.acts[1..]);
            Sound(v) && (Marked(w) ==> Marked(v)) && Next(w.states[0], w.acts[0], w.states[1])
  {
    var v := Walk(w.states[1..], w.acts[1..]);
    assert StepAt(w, 0);
    forall i | 0 <= i < |v.acts|
      ensures StepAt(v, i) && (MarkedAt(w, i + 1) ==> MarkedAt(v, i))
    {
      assert StepAt(w, i + 1);
    }
  }

  lemma {:induction false} WalkIsARun(w: Walk, s: State, z: State)
    requires From(w, s, z)
    ensures Runs(s, w.acts, z) && (Marked(w) ==> EndsAreMarked(s, w.acts))
    decreases |w.acts|
  {
    if w.acts != [] {
      Tail(w);
      assert Marked(w) ==> MarkedAt(w, 0);
      WalkIsARun(Walk(w.states[1..], w.acts[1..]), w.states[1], z);
    }
  }

  lemma UndisturbedAppend(a: seq<Step>, b: seq<Step>)
    ensures Undisturbed(a) && Undisturbed(b) ==> Undisturbed(a + b)
  {
    if Undisturbed(a) && Undisturbed(b) {
      forall k | 0 <= k < |a + b| ensures Smooth((a + b)[k]) {
        assert k < |a| ==> Smooth(a[k]);
        assert k >= |a| ==> Smooth(b[k - |a|]);
      }
    }
  }

  function Join(u: Walk, w: Walk): Walk
    requires w.states != []
  {
    Walk(u.states + w.states[1..], u.acts + w.acts)
  }

  lemma JoinAt(u: Walk, w: Walk, i: nat)
    requires Sound(u) && Sound(w) && u.states[|u.acts|] == w.states[0] && i < |u.acts| + |w.acts|
    ensures StepAt(Join(u, w), i) && (Marked(u) && Marked(w) ==> MarkedAt(Join(u, w), i))
  {
    var v := Join(u, w);
    if i < |u.acts| {
      assert StepAt(u, i) && (Marked(u) ==> MarkedAt(u, i));
      assert v.states[i] == u.states[i] && v.states[i + 1] == u.states[i + 1] && v.acts[i] == u.acts[i];
    } else {
      var j := i - |u.acts|;
      assert StepAt(w, j) && (Marked(w) ==> MarkedAt(w, j));
      assert v.states[i] == w.states[j] && v.states[i + 1] == w.states[j + 1] && v.acts[i] == w.acts[j];
    }
  }

  /** One walk after another. */
  lemma Joined(u: Walk, w: Walk, s: State, m: State, z: State) returns (v: Walk)
    requires From(u, s, m) && From(w, m, z)
    ensures From(v, s, z) && (Marked(u) && Marked(w) ==> Marked(v)) && (Gentle(u) && Gentle(w) ==> Gentle(v))
  {
    v := Join(u, w);
    UndisturbedAppend(u.acts, w.acts);
    forall i | 0 <= i < |v.acts|
      ensures StepAt(v, i) && (Marked(u) && Marked(w) ==> MarkedAt(v, i))
    {
      JoinAt(u, w, i);
    }
    assert v.states[|v.acts|] == z;
  }

  lemma OneStep(s: State, a: Step, z: State) returns (w: Walk)
    requires Next(s, a, z) && WellFormed(z)
    ensures From(w, s, z) && w.acts == [a]
    ensures (a.Complete? || a.End? ==> !Unmarked(s, a.r)) ==> Marked(w)
    ensures Smooth(a) ==> Gentle(w)
  {
    w := Walk([s, z], [a]);
    assert StepAt(w, 0);
  }

  // -------- steps --------

  /** What no piece of a run changes. */
  predicate SameElse(s: State, z: State) {
    z.plan == s.plan && z.auto == s.auto && z.markFailed == s.markFailed
  }

  /** Everything but the handlers is as before. */
  predicate OnlyHandlers(s: State, z: State) {
    z == s.(handlers := z.handlers)
  }

  lemma Finishes(s: State, r: RequestId, h: nat, t: TaskId, p: ProjectId) returns (z: State)
    requires WellFormed(s) && p in s.auto && r in s.requests && s.requests[r].task == t
    requires s.requests[r].outcome != Ended
    requires t in s.plan.rows && s.plan.rows[t].project == p && h !in s.handlers
    ensures Next(s, Complete(r, h), z) && WellFormed(z) && SameElse(s, z)
    ensures z.status == s.status[t := Deployed] && z.requests == s.requests[r := Request(t, Completed)]
    ensures z.handlers == s.handlers[h := Handler(p, Woken)] && z.log == s.log
  {
    z := Apply(s, Complete(r, h));
  }

  lemma Completes(s: State, r: RequestId, h: nat, t: TaskId, p: ProjectId) returns (w: Walk, z: State)
    requires WellFormed(s) && p in s.auto && r in s.requests && s.requests[r].task == t
    requires s.requests[r].outcome != Ended
    requires t in s.plan.rows && s.plan.rows[t].project == p && h !in s.handlers
    ensures From(w, s, z) && w.acts == [Complete(r, h)] && Gentle(w) && WellFormed(z) && SameElse(s, z)
    ensures z.status == s.status[t := Deployed] && z.requests == s.requests[r := Request(t, Completed)]
    ensures z.handlers == s.handlers[h := Handler(p, Woken)] && z.log == s.log
    ensures !Unmarked(s, r) ==> Marked(w)
  {
    z := Finishes(s, r, h, t, p);
    w := OneStep(s, Complete(r, h), z);
  }

  lemma Reports(s: State, r: RequestId, stage: Status, t: TaskId) returns (w: Walk, z: State)
    requires WellFormed(s) && r in s.requests && s.requests[r] == Request(t, Open) && IsInFlight(stage)
    ensures From(w, s, z) && Gentle(w) && WellFormed(z) && SameElse(s, z) && Marked(w)
    ensures z.status == s.status[t := stage] && z.requests == s.requests && z.handlers == s.handlers && z.log == s.log
  {
    z := Apply(s, Report(r, stage));
    w := OneStep(s, Report(r, stage), z);
  }

  lemma Reads(s: State, h: nat, p: ProjectId, ready: seq<TaskId>) returns (w: Walk, z: State)
    requires WellFormed(s) && h in s.handlers && s.handlers[h] == Handler(p, Woken)
    requires ReadyList(s.plan, s.status, p) == ready
    ensures From(w, s, z) && Gentle(w) && WellFormed(z) && OnlyHandlers(s, z) && Marked(w)
    ensures z.handlers == s.handlers[h := Handler(p, Checking(ready, []))]
  {
    z := Apply(s, Read(h));
    w := OneStep(s, Read(h), z);
  }

  lemma Keeps(s: State, h: nat, p: ProjectId, t: TaskId) returns (w: Walk, z: State)
    requires WellFormed(s) && h in s.handlers && s.handlers[h] == Handler(p, Checking([t], []))
    requires t in s.plan.rows && s.status[t] == Backlog && s.plan.rows[t].list == Finalized
    ensures From(w, s, z) && Gentle(w) && WellFormed(z) && OnlyHandlers(s, z) && Marked(w)
    ensures z.handlers == s.handlers[h := Handler(p, Checking([], [t]))]
  {
    z := Apply(s, Check(h));
    assert [t][1..] == [] && [] + [t] == [t];
    w := OneStep(s, Check(h), z);
  }

  lemma EndsChecking(s: State, h: nat, p: ProjectId, kept: seq<TaskId>) returns (w: Walk, z: State)
    requires WellFormed(s) && h in s.handlers && s.handlers[h] == Handler(p, Checking([], kept))
    ensures From(w, s, z) && Gentle(w) && WellFormed(z) && OnlyHandlers(s, z) && Marked(w)
    ensures z.handlers == s.handlers[h := Handler(p, Dispatching(kept))]
  {
    z := Apply(s, Check(h));
    w := OneStep(s, Check(h), z);
  }

  lemma Fires(s: State, h: nat, p: ProjectId, t: TaskId, r: RequestId) returns (w: Walk, z: State)
    requires WellFormed(s) && t in s.plan.rows && r !in s.requests
    requires h in s.handlers && s.handlers[h] == Handler(p, Dispatching([t]))
    ensures From(w, s, z) && Gentle(w) && WellFormed(z) && SameElse(s, z) && Marked(w)
    ensures z.status == s.status && z.requests == s.requests[r := Request(t, Open)]
    ensures z.handlers == s.handlers[h := Handler(p, Marking(t, r, []))]
    ensures z.log == s.log + [CascadeModel.Snapshot(s, p, t)]
  {
    z := Apply(s, Fire(h, r, true));
    assert [t][1..] == [];
    w := OneStep(s, Fire(h, r, true), z);
  }

  lemma Marks(s: State, h: nat, p: ProjectId, t: TaskId, r: RequestId) returns (w: Walk, z: State)
    requires WellFormed(s) && t in s.plan.rows && h in s.handlers && s.handlers[h] == Handler(p, Marking(t, r, []))
    ensures From(w, s, z) && Gentle(w) && WellFormed(z) && SameElse(s, z) && Marked(w)
    ensures z.status == s.status[t := Dispatched] && z.requests == s.requests && z.log == s.log
    ensures z.handlers == s.handlers[h := Handler(p, Dispatching([]))]
  {
    z := Apply(s, Mark(h, true));
    w := OneStep(s, Mark(h, true), z);
  }

  lemma Closes(s: State, h: nat, p: ProjectId, spare: RequestId) returns (w: Walk, z: State)
    requires WellFormed(s) && h in s.handlers && s.handlers[h] == Handler(p, Dispatching([])) && spare !in s.requests
    ensures From(w, s, z) && Gentle(w) && WellFormed(z) && OnlyHandlers(s, z) && Marked(w)
    ensures z.handlers == s.handlers - {h}
  {
    z := Apply(s, Fire(h, spare, true));
    w := OneStep(s, Fire(h, spare, true), z);
  }

  // -------- handlers --------

  lemma OnlyReady(s: State, p: ProjectId, t: TaskId)
    requires WellFormed(s) && ReadyList(s.plan, s.status, p) == [t]
    ensures t in s.plan.rows && t in s.status && s.status[t] == Backlog
    ensures s.plan.rows[t].project == p && s.plan.rows[t].list == Finalized
  {
    assert t in ReadyList(s.plan, s.status, p);
  }

  /** A woken handler reads, re-checks and stops before it submits the one ready task. */
  lemma Takes(s: State, h: nat, p: ProjectId, t: TaskId) returns (w: Walk, z: State)
    requires WellFormed(s) && h in s.handlers && s.handlers[h] == Handler(p, Woken)
    requires ReadyList(s.plan, s.status, p) == [t]
    ensures From(w, s, z) && WellFormed(z) && OnlyHandlers(s, z) && Marked(w) && Gentle(w)
    ensures z.handlers == s.handlers[h := Handler(p, Dispatching([t]))]
  {
    OnlyReady(s, p, t);
    var w1, m := Reads(s, h, p, [t]);
    var w2, n := Keeps(m, h, p, t);
    var w3;
    w3, z := EndsChecking(n, h, p, [t]);
    w := Joined(w1, w2, s, m, n);
    w := Joined(w, w3, s, n, z);
  }

  /** A woken handler finds nothing ready and ends. */
  lemma Idles(s: State, h: nat, p: ProjectId, spare: RequestId) returns (w: Walk, z: State)
    requires WellFormed(s) && h in s.handlers && s.handlers[h] == Handler(p, Woken) && spare !in s.requests
    requires ReadyList(s.plan, s.status, p) == []
    ensures From(w, s, z) && WellFormed(z) && OnlyHandlers(s, z) && Marked(w) && Gentle(w)
    ensures z.handlers == s.handlers - {h}
  {
    var w1, m := Reads(s, h, p, []);
    var w2, n := EndsChecking(m, h, p, []);
    var w3;
    w3, z := Closes(n, h, p, spare);
    assert n.handlers - {h} == s.handlers - {h};
    w := Joined(w1, w2, s, m, n);
    w := Joined(w, w3, s, n, z);
  }

  /** A handler submits its one task, marks it and ends. */
  lemma Dispatches(s: State, h: nat, p: ProjectId, t: TaskId, r: RequestId, spare: RequestId)
    returns (w: Walk, z: State)
    requires WellFormed(s) && h in s.handlers && s.handlers[h] == Handler(p, Woken) && r !in s.requests
    requires spare !in s.requests && r != spare
    requires ReadyList(s.plan, s.status, p) == [t]
    ensures From(w, s, z) && WellFormed(z) && SameElse(s, z) && Marked(w)
    ensures Gentle(w)
    ensures z.status == s.status[t := Dispatched] && z.requests == s.requests[r := Request(t, Open)]
    ensures z.handlers == s.handlers - {h}
    ensures |z.log| == |s.log| + 1
  {
    OnlyReady(s, p, t);
    var w1, m := Takes(s, h, p, t);
    var w2, n := Fires(m, h, p, t, r);
    var w3, o := Marks(n, h, p, t, r);
    var w4;
    w4, z := Closes(o, h, p, spare);
    w := Joined(w1, w2, s, m, n);
    w := Joined(w, w3, s, n, o);
    w := Joined(w, w4, s, o, z);
  }

  // -------- on the line --------

  /** The request of `a` completes and wakes a handler. */
  lemma FirstDone(s: State, l: Line)
    returns (w: Walk, z: State)
    requires TwoRunning(s, l)
    ensures From(w, s, z) && Marked(w) && w.acts == [Complete(l.ra, 0)] && Gentle(w) && OnLine(z, l) && z.log == []
    ensures Statuses(z, l, Deployed, Backlog, Backlog, InProgress)
    ensures z.requests.Keys == {l.ra, l.rx} && l.ra in z.requests && z.requests[l.ra] == Request(l.a, Completed)
    ensures l.rx in z.requests && z.requests[l.rx] == Request(l.x, Open) && z.handlers == map[0 := Handler(l.p, Woken)]
  {
    LineRows(s, l);
    assert s.requests[l.ra] == Request(l.a, Open) && s.requests[l.rx] == Request(l.x, Open);
    w, z := Completes(s, l.ra, 0, l.a, l.p);
  }

  /** The request of `x` completes and wakes a handler. */
  lemma OtherDone(s: State, h: nat, l: Line)
    returns (w: Walk, z: State)
    requires OnLine(s, l) && l.rx in s.requests && s.requests[l.rx] == Request(l.x, Open) && h !in s.handlers
    requires forall g :: g in s.handlers ==> s.handlers[g].phase.Woken?
    ensures From(w, s, z) && Marked(w) && Gentle(w) && WellFormed(z) && SameElse(s, z) && z.log == s.log
    ensures z.status == s.status[l.x := Deployed] && z.requests == s.requests[l.rx := Request(l.x, Completed)]
    ensures z.handlers == s.handlers[h := Handler(l.p, Woken)]
  {
    LineRows(s, l);
    w, z := Completes(s, l.rx, h, l.x, l.p);
  }

  lemma TakesFirst(s: State, l: Line) returns (w: Walk, z: State)
    requires OnLine(s, l) && Statuses(s, l, Deployed, Backlog, Backlog, InProgress)
    requires s.handlers == map[0 := Handler(l.p, Woken)] && s.log == []
    ensures From(w, s, z) && Marked(w) && Gentle(w) && OnLine(z, l) && z.requests == s.requests && z.log == []
    ensures Statuses(z, l, Deployed, Backlog, Backlog, InProgress)
    ensures z.handlers == map[0 := Handler(l.p, Dispatching([l.b]))]
  {
    ReadyOnLine(s, l);
    w, z := Takes(s, 0, l.p, l.b);
  }

  lemma FiresFirst(s: State, l: Line, r1: RequestId) returns (w: Walk, z: State)
    requires OnLine(s, l) && Statuses(s, l, Deployed, Backlog, Backlog, InProgress)
    requires s.handlers == map[0 := Handler(l.p, Dispatching([l.b]))] && s.log == [] && r1 !in s.requests
    ensures From(w, s, z) && Marked(w) && Gentle(w) && OnLine(z, l)
    ensures z.requests == s.requests[r1 := Request(l.b, Open)]
    ensures Statuses(z, l, Deployed, Backlog, Backlog, InProgress)
    ensures z.handlers == map[0 := Handler(l.p, Marking(l.b, r1, []))] && |z.log| == 1 && z.log[0].task == l.b
  {
    LineRows(s, l);
    w, z := Fires(s, 0, l.p, l.b, r1);
  }

  /** `b` is submitted. */
  lemma SubmittedOnce(s: State, l: Line, r1: RequestId) returns (w: Walk, z: State)
    requires OnLine(s, l) && Statuses(s, l, Deployed, Backlog, Backlog, InProgress)
    requires r1 !in s.requests && s.handlers == map[0 := Handler(l.p, Woken)] && s.log == []
    ensures From(w, s, z) && Marked(w) && Gentle(w) && OnLine(z, l)
    ensures z.requests == s.requests[r1 := Request(l.b, Open)]
    ensures Statuses(z, l, Deployed, Backlog, Backlog, InProgress)
    ensures z.handlers == map[0 := Handler(l.p, Marking(l.b, r1, []))] && |z.log| == 1 && z.log[0].task == l.b
  {
    var w1, n := TakesFirst(s, l);
    var w2;
    w2, z := FiresFirst(n, l, r1);
    w := Joined(w1, w2, s, n, z);
  }

  /** The request of `b` completes before its handler marks it. */
  lemma CompletesUnmarked(s: State, l: Line, r1: RequestId)
    returns (w: Walk, z: State)
    requires OnLine(s, l) && Statuses(s, l, Deployed, Backlog, Backlog, InProgress)
    requires r1 in s.requests && s.requests[r1] == Request(l.b, Open)
    requires s.handlers == map[0 := Handler(l.p, Marking(l.b, r1, []))]
    ensures From(w, s, z) && Gentle(w) && OnLine(z, l) && z.log == s.log
    ensures Statuses(z, l, Deployed, Deployed, Backlog, InProgress)
    ensures z.requests == s.requests[r1 := Request(l.b, Completed)]
    ensures z.handlers == map[0 := Handler(l.p, Marking(l.b, r1, [])), 1 := Handler(l.p, Woken)]
  {
    LineRows(s, l);
    w, z := Completes(s, r1, 1, l.b, l.p);
  }
}
