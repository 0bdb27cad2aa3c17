/** Runs in which the cascade breaks its promises: a task submitted twice, a task submitted while one it
    waits for is no longer deployed, and a task lost in flight. */
module CascadeOverlap {
  import opened CascadeModel
  import opened CascadeSafety
  import opened CascadeOrder
  import opened CascadeScripts

  /** The second running task completes before the handler that the first one woke has read anything. */
  lemma BothWake(s: State, l: Line)
    returns (w: Walk, z: State)
    requires TwoRunning(s, l)
    ensures From(w, s, z) && Marked(w) && OnLine(z, l) && z.log == [] && z.requests.Keys == {l.ra, l.rx}
    ensures Statuses(z, l, Deployed, Backlog, Backlog, Deployed)
    ensures z.handlers == map[0 := Handler(l.p, Woken), 1 := Handler(l.p, Woken)]
  {
    var w1, m := FirstDone(s, l);
    var w2;
    w2, z := OtherDone(m, 1, l);
    w := Joined(w1, w2, s, m, z);
  }

  /** Two woken handlers read and re-check the same task before either submits it. */
  lemma BothTake(s: State, p: ProjectId, t: TaskId) returns (w: Walk, z: State)
    requires WellFormed(s) && s.handlers == map[0 := Handler(p, Woken), 1 := Handler(p, Woken)]
    requires ReadyList(s.plan, s.status, p) == [t]
    ensures From(w, s, z) && Marked(w) && WellFormed(z) && OnlyHandlers(s, z)
    ensures z.handlers == map[0 := Handler(p, Dispatching([t])), 1 := Handler(p, Dispatching([t]))]
  {
    var w1, m := Takes(s, 0, p, t);
    var w2;
    w2, z := Takes(m, 1, p, t);
    w := Joined(w1, w2, s, m, z);
  }

  /** Both submit it, the second one before the first one has marked it. */
  lemma BothFire(s: State, p: ProjectId, t: TaskId, r1: RequestId, r2: RequestId) returns (w: Walk, z: State)
    requires WellFormed(s) && t in s.plan.rows && r1 !in s.requests && r2 !in s.requests && r1 != r2 && s.log == []
    requires s.handlers == map[0 := Handler(p, Dispatching([t])), 1 := Handler(p, Dispatching([t]))]
    ensures From(w, s, z) && Marked(w) && WellFormed(z) && SameElse(s, z) && z.status == s.status
    ensures z.requests == s.requests[r1 := Request(t, Open)][r2 := Request(t, Open)]
    ensures z.handlers == map[0 := Handler(p, Marking(t, r1, [])), 1 := Handler(p, Marking(t, r2, []))]
    ensures |z.log| == 2 && z.log[0].task == t && z.log[1].task == t
    ensures s.status[t] == Backlog ==> z.log[0].fromBacklog && z.log[1].fromBacklog
  {
    var w1, m := Fires(s, 0, p, t, r1);
    var w2;
    w2, z := Fires(m, 1, p, t, r2);
    BothLogged(s, m, z, p, t);
    w := Joined(w1, w2, s, m, z);
  }

  lemma BothLogged(s: State, m: State, z: State, p: ProjectId, t: TaskId)
    requires WellFormed(s) && WellFormed(m) && t in s.plan.rows && m.plan == s.plan && m.status == s.status
    requires m.log == s.log + [CascadeModel.Snapshot(s, p, t)] && z.log == m.log + [CascadeModel.Snapshot(m, p, t)]
    requires s.log == []
    ensures |z.log| == 2 && z.log[0].task == t && z.log[1].task == t
    ensures s.status[t] == Backlog ==> z.log[0].fromBacklog && z.log[1].fromBacklog
  {
  }

  /** `b` submitted by two handlers, neither of which has marked it. */
  ghost predicate SubmittedTwice(z: State, l: Line, r1: RequestId, r2: RequestId) {
    && OnLine(z, l) && Statuses(z, l, Deployed, Backlog, Backlog, Deployed)
    && z.requests.Keys == {l.ra, l.rx, r1, r2} && r1 in z.requests && r2 in z.requests
    && z.requests[r1] == Request(l.b, Open) && z.requests[r2] == Request(l.b, Open)
    && z.handlers == map[0 := Handler(l.p, Marking(l.b, r1, [])), 1 := Handler(l.p, Marking(l.b, r2, []))]
    && |z.log| == 2 && z.log[0].task == l.b && z.log[1].task == l.b && z.log[0].fromBacklog && z.log[1].fromBacklog
  }

  lemma TakenTwice(s: State, l: Line)
    returns (w: Walk, z: State)
    requires TwoRunning(s, l)
    ensures From(w, s, z) && Marked(w) && OnLine(z, l) && z.log == [] && z.requests.Keys == {l.ra, l.rx}
    ensures Statuses(z, l, Deployed, Backlog, Backlog, Deployed)
    ensures z.handlers == map[0 := Handler(l.p, Dispatching([l.b])), 1 := Handler(l.p, Dispatching([l.b]))]
  {
    var w1, m := BothWake(s, l);
    ReadyOnLine(m, l);
    var w2;
    w2, z := BothTake(m, l.p, l.b);
    w := Joined(w1, w2, s, m, z);
  }

  lemma TwiceSubmitted(s: State, l: Line, r1: RequestId, r2: RequestId)
    returns (w: Walk, z: State)
    requires TwoRunning(s, l) && r1 != r2 && {r1, r2} !! {l.ra, l.rx}
    ensures From(w, s, z) && Marked(w) && SubmittedTwice(z, l, r1, r2)
  {
    var w1, n := TakenTwice(s, l);
    LineRows(n, l);
    var w2;
    w2, z := BothFire(n, l.p, l.b, r1, r2);
    w := Joined(w1, w2, s, n, z);
  }

  /** Neither the re-check nor the mark covers the submission: `b` is submitted by two handlers, and both
      find it in the backlog. */
  lemma SideBySideHandlersSubmitTwice(s: State, l: Line, r1: RequestId, r2: RequestId)
    returns (acts: seq<Step>, z: State)
    requires TwoRunning(s, l) && r1 != r2 && {r1, r2} !! {l.ra, l.rx}
    ensures Start(s) && Runs(s, acts, z) && !NoTaskTwice(z.log)
    ensures |z.log| == 2 && z.log[0].fromBacklog && z.log[1].fromBacklog
  {
    TwoRunningIsAStart(s, l);
    var w;
    w, z := TwiceSubmitted(s, l, r1, r2);
    WalkIsARun(w, s, z);
    acts := w.acts;
  }

  // -------- a dependency that is no longer deployed --------

  /** Both handlers mark `b`. */
  lemma BothMark(s: State, p: ProjectId, t: TaskId, r1: RequestId, r2: RequestId) returns (w: Walk, z: State)
    requires WellFormed(s) && t in s.plan.rows
    requires s.handlers == map[0 := Handler(p, Marking(t, r1, [])), 1 := Handler(p, Marking(t, r2, []))]
    ensures From(w, s, z) && Marked(w) && WellFormed(z) && SameElse(s, z) && z.log == s.log && z.requests == s.requests
    ensures z.status == s.status[t := Dispatched]
    ensures z.handlers == map[0 := Handler(p, Dispatching([])), 1 := Handler(p, Dispatching([]))]
  {
    var w1, m := Marks(s, 0, p, t, r1);
    var w2;
    w2, z := Marks(m, 1, p, t, r2);
    w := Joined(w1, w2, s, m, z);
  }

  /** Both handlers mark `b`, and its first request completes. */
  lemma MarkedAndCompleted(s: State, l: Line, r1: RequestId, r2: RequestId)
    returns (w: Walk, z: State)
    requires SubmittedTwice(s, l, r1, r2) && r1 != r2 && {r1, r2} !! {l.ra, l.rx}
    ensures From(w, s, z) && Marked(w) && OnLine(z, l) && z.log == s.log
    ensures Statuses(z, l, Deployed, Deployed, Backlog, Deployed)
    ensures z.requests.Keys == {l.ra, l.rx, r1, r2} && r2 in z.requests && z.requests[r2] == Request(l.b, Open)
    ensures 2 in z.handlers && z.handlers[2] == Handler(l.p, Woken)
  {
    LineRows(s, l);
    var w1, n := BothMark(s, l.p, l.b, r1, r2);
    var w2;
    w2, z := Completes(n, r1, 2, l.b, l.p);
    assert !Unmarked(n, r1);
    w := Joined(w1, w2, s, n, z);
  }

  /** A handler has taken `c`, and a request of `b` reports; then `c` is submitted. */
  lemma ReportsAndFires(s: State, h: nat, l: Line, r2: RequestId, r3: RequestId)
    returns (w: Walk, z: State)
    requires OnLine(s, l) && r2 in s.requests && s.requests[r2] == Request(l.b, Open) && r3 !in s.requests
    requires h in s.handlers && s.handlers[h] == Handler(l.p, Dispatching([l.c]))
    ensures From(w, s, z) && Marked(w) && |z.log| == |s.log| + 1 && z.log[..|s.log|] == s.log
    ensures z.log[|s.log|].task == l.c && !z.log[|s.log|].depsDeployedNow
  {
    LineRows(s, l);
    var w1, n := Reports(s, r2, InProgress, l.b);
    var w2;
    w2, z := Fires(n, h, l.p, l.c, r3);
    w := Joined(w1, w2, s, n, z);
  }

  /** `b` is submitted twice and completed once, and a handler has taken `c`. */
  lemma TakenAfterTwice(s: State, l: Line, r1: RequestId, r2: RequestId)
    returns (w: Walk, z: State)
    requires TwoRunning(s, l) && r1 != r2 && {r1, r2} !! {l.ra, l.rx}
    ensures From(w, s, z) && Marked(w) && OnLine(z, l) && |z.log| == 2
    ensures z.requests.Keys == {l.ra, l.rx, r1, r2} && r2 in z.requests && z.requests[r2] == Request(l.b, Open)
    ensures 2 in z.handlers && z.handlers[2] == Handler(l.p, Dispatching([l.c]))
  {
    var w1, m := TwiceSubmitted(s, l, r1, r2);
    var w2, n := MarkedAndCompleted(m, l, r1, r2);
    ReadyOnLine(n, l);
    var w3;
    w3, z := Takes(n, 2, l.p, l.c);
    w := Joined(w1, w2, s, m, n);
    w := Joined(w, w3, s, n, z);
  }

  /** A task submitted twice lets a later one go too early: although no request completes before its task
      is marked, `c` is submitted while `b`, which it waits for, is in progress. */
  lemma SecondRequestUndoesADeploy(s: State, l: Line, r1: RequestId, r2: RequestId, r3: RequestId)
    returns (acts: seq<Step>, z: State)
    requires TwoRunning(s, l) && r1 != r2 && r3 !in {r1, r2} && {r1, r2, r3} !! {l.ra, l.rx}
    ensures Start(s) && OneLiveEach(s) && DeployedIsSettled(s) && Runs(s, acts, z) && CompletionsAreMarked(s, acts)
    ensures |z.log| == 3 && z.log[2].task == l.c && !z.log[2].depsDeployedNow
  {
    StartIsSettled(s, l);
    var w1, n := TakenAfterTwice(s, l, r1, r2);
    var w2;
    w2, z := ReportsAndFires(n, 2, l, r2, r3);
    var w := Joined(w1, w2, s, n, z);
    WalkIsARun(w, s, z);
    EndsMeanCompletions(s, w.acts);
    acts := w.acts;
  }

  lemma StartIsSettled(s: State, l: Line)
    requires TwoRunning(s, l)
    ensures Start(s) && OneLiveEach(s) && DeployedIsSettled(s)
  {
    TwoRunningIsAStart(s, l);
    assert s.requests[l.ra].task == l.a && s.requests[l.rx].task == l.x;
  }

  lemma {:induction false} EndsMeanCompletions(s: State, acts: seq<Step>)
    requires WellFormed(s) && EndsAreMarked(s, acts)
    ensures CompletionsAreMarked(s, acts)
    decreases |acts|
  {
    if acts != [] { EndsMeanCompletions(Apply(s, acts[0]), acts[1..]); }
  }

  // -------- a mark that comes late --------

  /** A second handler takes `c` while the first one is still marking. */
  lemma TakesBehind(s: State, first: Handler, l: Line) returns (w: Walk, z: State)
    requires OnLine(s, l) && Statuses(s, l, Deployed, Deployed, Backlog, InProgress)
    requires s.handlers == map[0 := first, 1 := Handler(l.p, Woken)]
    ensures From(w, s, z) && OnLine(z, l) && z.log == s.log && z.requests == s.requests
    ensures z.handlers == map[0 := first, 1 := Handler(l.p, Dispatching([l.c]))]
  {
    ReadyOnLine(s, l);
    w, z := Takes(s, 1, l.p, l.c);
  }

  /** The request of `b` completes before its handler marks it, and another handler takes `c`. */
  lemma TakenUnmarked(s: State, l: Line, r1: RequestId)
    returns (w: Walk, z: State)
    requires OnLine(s, l) && Statuses(s, l, Deployed, Backlog, Backlog, InProgress)
    requires r1 in s.requests && s.requests[r1] == Request(l.b, Open)
    requires s.handlers == map[0 := Handler(l.p, Marking(l.b, r1, []))]
    ensures From(w, s, z) && OnLine(z, l) && z.log == s.log && z.requests.Keys == s.requests.Keys
    ensures z.handlers == map[0 := Handler(l.p, Marking(l.b, r1, [])), 1 := Handler(l.p, Dispatching([l.c]))]
  {
    var w1, n := CompletesUnmarked(s, l, r1);
    var w2;
    w2, z := TakesBehind(n, Handler(l.p, Marking(l.b, r1, [])), l);
    w := Joined(w1, w2, s, n, z);
  }

  lemma MarksAndFires(s: State, l: Line, r1: RequestId, r2: RequestId)
    returns (w: Walk, z: State)
    requires OnLine(s, l) && r2 !in s.requests
    requires s.handlers == map[0 := Handler(l.p, Marking(l.b, r1, [])), 1 := Handler(l.p, Dispatching([l.c]))]
    ensures From(w, s, z) && |z.log| == |s.log| + 1 && z.log[..|s.log|] == s.log
    ensures z.log[|s.log|].task == l.c && !z.log[|s.log|].depsDeployedNow
  {
    LineRows(s, l);
    var w1, o := Marks(s, 0, l.p, l.b, r1);
    var w2;
    w2, z := Fires(o, 1, l.p, l.c, r2);
    w := Joined(w1, w2, s, o, z);
  }

  /** `b` is submitted and completed but not marked, and a handler has taken `c`. */
  lemma TakenBeforeTheMark(s: State, l: Line, r1: RequestId)
    returns (w: Walk, z: State)
    requires TwoRunning(s, l) && r1 !in {l.ra, l.rx}
    ensures From(w, s, z) && OnLine(z, l) && |z.log| == 1 && z.log[0].task == l.b && z.requests.Keys == {l.ra, l.rx, r1}
    ensures z.handlers == map[0 := Handler(l.p, Marking(l.b, r1, [])), 1 := Handler(l.p, Dispatching([l.c]))]
  {
    var w1, k := FirstDone(s, l);
    var w2, m := SubmittedOnce(k, l, r1);
    var w3;
    w3, z := TakenUnmarked(m, l, r1);
    w := Joined(w1, w2, s, k, m);
    w := Joined(w, w3, s, m, z);
  }

  lemma FiredAfterTheMark(s: State, l: Line, r1: RequestId, r2: RequestId)
    returns (w: Walk, z: State)
    requires TwoRunning(s, l) && r1 != r2 && {r1, r2} !! {l.ra, l.rx}
    ensures From(w, s, z) && NoTaskTwice(z.log) && |z.log| == 2 && z.log[1].task == l.c && !z.log[1].depsDeployedNow
  {
    var w1, n := TakenBeforeTheMark(s, l, r1);
    var w2;
    w2, z := MarksAndFires(n, l, r1, r2);
    assert z.log[0] == z.log[..1][0];
    w := Joined(w1, w2, s, n, z);
  }

  /** A late mark lets a later task go too early as well: no task is submitted twice, and `c` is submitted
      although the mark of `b` has just overwritten that it was deployed. */
  lemma LateMarkUndoesADeploy(s: State, l: Line, r1: RequestId, r2: RequestId)
    returns (acts: seq<Step>, z: State)
    requires TwoRunning(s, l) && r1 != r2 && {r1, r2} !! {l.ra, l.rx}
    ensures Start(s) && OneLiveEach(s) && DeployedIsSettled(s) && Runs(s, acts, z)
    ensures NoTaskTwice(z.log) && |z.log| == 2 && z.log[1].task == l.c && !z.log[1].depsDeployedNow
  {
    StartIsSettled(s, l);
    var w;
    w, z := FiredAfterTheMark(s, l, r1, r2);
    WalkIsARun(w, s, z);
    acts := w.acts;
  }
}
