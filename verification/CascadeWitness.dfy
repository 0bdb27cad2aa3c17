/** Two runs to rest on the line of tasks: one that delivers everything, and one that loses a task because
    its request completes before it is marked. */
module CascadeWitness {
  import opened CascadeModel
  import opened CascadeDelivery
  import opened CascadeQuiescence
  import opened CascadeScripts

  /** The only handler submits its one task, marks it and ends. */
  lemma DispatchesAlone(s: State, p: ProjectId, t: TaskId, r: RequestId, spare: RequestId) returns (w: Walk, z: State)
    requires WellFormed(s) && s.handlers == map[0 := Handler(p, Woken)] && r !in s.requests
    requires spare !in s.requests && r != spare
    requires ReadyList(s.plan, s.status, p) == [t]
    ensures From(w, s, z) && Marked(w) && Gentle(w) && WellFormed(z) && SameElse(s, z)
    ensures z.status == s.status[t := Dispatched] && z.requests == s.requests[r := Request(t, Open)]
    ensures z.handlers == map[]
    ensures |z.log| == |s.log| + 1
  {
    w, z := Dispatches(s, 0, p, t, r, spare);
  }

  /** With no handler left, the request of `t` completes and wakes the next one. */
  lemma CompletesAlone(s: State, p: ProjectId, t: TaskId, r: RequestId) returns (w: Walk, z: State)
    requires WellFormed(s) && s.handlers == map[] && r in s.requests && s.requests[r] == Request(t, Open)
    requires p in s.auto && t in s.plan.rows && s.plan.rows[t].project == p
    ensures From(w, s, z) && Marked(w) && Gentle(w) && WellFormed(z) && SameElse(s, z)
    ensures z.status == s.status[t := Deployed] && z.requests == s.requests[r := Request(t, Completed)]
    ensures z.handlers == map[0 := Handler(p, Woken)] && z.log == s.log
  {
    w, z := Completes(s, r, 0, t, p);
  }

  lemma WrittenTwice<K, V>(m: map<K, V>, k: K, first: V, last: V)
    ensures m[k := first][k := last] == m[k := last]
  {
  }

  /** A woken handler submits its one task, marks it and ends; the task's request completes and wakes the
      next handler. */
  lemma Delivers(s: State, p: ProjectId, t: TaskId, r: RequestId, spare: RequestId) returns (w: Walk, z: State)
    requires WellFormed(s) && s.handlers == map[0 := Handler(p, Woken)] && r !in s.requests
    requires spare !in s.requests && r != spare
    requires p in s.auto && ReadyList(s.plan, s.status, p) == [t]
    ensures From(w, s, z) && Marked(w) && Gentle(w) && WellFormed(z) && SameElse(s, z)
    ensures t in s.status && z.status == s.status[t := Deployed] && z.requests == s.requests[r := Request(t, Completed)]
    ensures z.handlers == map[0 := Handler(p, Woken)] && |z.log| == |s.log| + 1
  {
    OnlyReady(s, p, t);
    var w1, m := DispatchesAlone(s, p, t, r, spare);
    var w2;
    w2, z := CompletesAlone(m, p, t, r);
    WrittenTwice(s.status, t, Dispatched, Deployed);
    WrittenTwice(s.requests, r, Request(t, Open), Request(t, Completed));
    w := Joined(w1, w2, s, m, z);
  }

  /** A woken handler finds nothing and ends. */
  lemma FindsNothing(s: State, p: ProjectId, spare: RequestId) returns (w: Walk, z: State)
    requires WellFormed(s) && s.handlers == map[0 := Handler(p, Woken)] && spare !in s.requests
    requires ReadyList(s.plan, s.status, p) == []
    ensures From(w, s, z) && Marked(w) && Gentle(w) && WellFormed(z) && OnlyHandlers(s, z) && z.handlers == map[]
  {
    w, z := Idles(s, 0, p, spare);
  }

  lemma OnlyStep(w: Walk, s: State, z: State)
    requires From(w, s, z) && |w.acts| == 1
    ensures Next(s, w.acts[0], z)
  {
    assert StepAt(w, 0);
  }

  /** With nothing running any more, the request of `x` completes, and its handler finds nothing. */
  lemma WindsUp(s: State, l: Line, sb: Status, sc: Status, spare: RequestId)
    returns (w: Walk, z: State)
    requires OnLine(s, l) && Statuses(s, l, Deployed, sb, sc, InProgress) && s.handlers == map[]
    requires l.rx in s.requests && s.requests[l.rx] == Request(l.x, Open) && spare !in s.requests
    requires sb != Backlog && (sc != Backlog || sb != Deployed)
    ensures From(w, s, z) && Marked(w) && Gentle(w) && OnLine(z, l)
    ensures Statuses(z, l, Deployed, sb, sc, Deployed)
    ensures z.requests == s.requests[l.rx := Request(l.x, Completed)] && z.handlers == map[] && z.log == s.log
  {
    var w1, q := OtherDone(s, 0, l);
    ReadyOnLine(q, l);
    var w2;
    w2, z := FindsNothing(q, l.p, spare);
    w := Joined(w1, w2, s, q, z);
  }

  /** `b` and then `c` are dispatched and completed. */
  lemma DeliversTwo(s: State, l: Line, r1: RequestId, r2: RequestId, spare: RequestId)
    returns (w: Walk, z: State)
    requires OnLine(s, l) && Statuses(s, l, Deployed, Backlog, Backlog, InProgress)
    requires s.handlers == map[0 := Handler(l.p, Woken)] && s.requests.Keys !! {r1, r2, spare} && r1 != r2
    requires spare !in {r1, r2}
    ensures From(w, s, z) && Marked(w) && Gentle(w) && OnLine(z, l)
    ensures Statuses(z, l, Deployed, Deployed, Deployed, InProgress)
    ensures z.requests == s.requests[r1 := Request(l.b, Completed)][r2 := Request(l.c, Completed)]
    ensures z.handlers == map[0 := Handler(l.p, Woken)] && |z.log| == |s.log| + 2
  {
    LineRows(s, l);
    ReadyOnLine(s, l);
    var w1, m := Delivers(s, l.p, l.b, r1, spare);
    ReadyOnLine(m, l);
    var w2;
    w2, z := Delivers(m, l.p, l.c, r2, spare);
    w := Joined(w1, w2, s, m, z);
  }

  ghost predicate OthersClosed(s: State, rx: RequestId) {
    forall r :: r in s.requests && r != rx ==> s.requests[r].outcome != Open
  }

  /** The last handler finds nothing, and `x` completes. */
  lemma WindsUpAfter(s: State, l: Line, spare: RequestId)
    returns (w: Walk, z: State)
    requires OnLine(s, l) && Statuses(s, l, Deployed, Deployed, Deployed, InProgress)
    requires s.handlers == map[0 := Handler(l.p, Woken)] && l.rx in s.requests
    requires s.requests[l.rx] == Request(l.x, Open) && spare !in s.requests
    ensures From(w, s, z) && Marked(w) && Gentle(w) && OnLine(z, l)
    ensures Statuses(z, l, Deployed, Deployed, Deployed, Deployed)
    ensures z.requests == s.requests[l.rx := Request(l.x, Completed)] && z.handlers == map[] && z.log == s.log
  {
    ReadyOnLine(s, l);
    var w1, n := FindsNothing(s, l.p, spare);
    var w2;
    w2, z := WindsUp(n, l, Deployed, Deployed, spare);
    w := Joined(w1, w2, s, n, z);
  }

  lemma AllClosedThen(s: State, z: State, l: Line, r1: RequestId, r2: RequestId)
    requires OthersClosed(s, l.rx)
    requires z.requests ==
               s.requests[r1 := Request(l.b, Completed)]
                         [r2 := Request(l.c, Completed)]
                         [l.rx := Request(l.x, Completed)]
    ensures AllClosed(z)
  {
  }

  /** After the first completion everything is dispatched, completed and wound up. */
  lemma DeliversAll(s: State, l: Line, r1: RequestId, r2: RequestId, spare: RequestId)
    returns (w: Walk, z: State)
    requires OnLine(s, l) && Statuses(s, l, Deployed, Backlog, Backlog, InProgress)
    requires s.handlers == map[0 := Handler(l.p, Woken)] && s.requests.Keys !! {r1, r2, spare} && r1 != r2
    requires spare !in {r1, r2}
    requires l.rx in s.requests && s.requests[l.rx] == Request(l.x, Open) && OthersClosed(s, l.rx)
    ensures From(w, s, z) && Marked(w) && Gentle(w) && OnLine(z, l) && AllClosed(z)
    ensures Statuses(z, l, Deployed, Deployed, Deployed, Deployed) && z.handlers == map[] && |z.log| == |s.log| + 2
  {
    var w1, m := DeliversTwo(s, l, r1, r2, spare);
    var w2;
    w2, z := WindsUpAfter(m, l, spare);
    AllClosedThen(s, z, l, r1, r2);
    w := Joined(w1, w2, s, m, z);
  }

  lemma FirstCompletion(s: State, l: Line)
    returns (n: State)
    requires TwoRunning(s, l)
    ensures Next(s, Complete(l.ra, 0), n) && OnLine(n, l) && n.log == []
    ensures Statuses(n, l, Deployed, Backlog, Backlog, InProgress) && n.handlers == map[0 := Handler(l.p, Woken)]
    ensures n.requests.Keys == {l.ra, l.rx} && l.ra in n.requests && n.requests[l.ra] == Request(l.a, Completed)
    ensures l.rx in n.requests && n.requests[l.rx] == Request(l.x, Open) && OthersClosed(n, l.rx)
  {
    var w;
    w, n := FirstDone(s, l);
    OnlyStep(w, s, n);
  }

  /** What makes the end of a walk after the first completion a rest. */
  lemma EndsAtRest(s: State, l: Line, n: State, w: Walk, z: State)
    requires TwoRunning(s, l) && Next(s, Complete(l.ra, 0), n) && From(w, n, z) && Gentle(w)
    requires OnLine(z, l) && z.handlers == map[] && AllClosed(z) && NoneFailed(z)
    ensures Rested(s, [], s, Complete(l.ra, 0), n, w.acts, z, l.p)
  {
    TwoRunningIsAStart(s, l);
    WalkIsARun(w, n, z);
    BeginsRight(s, l);
  }

  lemma EndsAtMarkedRest(s: State, l: Line, n: State, w: Walk, z: State)
    requires Rested(s, [], s, Complete(l.ra, 0), n, w.acts, z, l.p)
    requires TwoRunning(s, l) && From(w, n, z) && Marked(w)
    ensures CameToRest(s, [], s, Complete(l.ra, 0), n, w.acts, z, l.p)
  {
    WalkIsARun(w, n, z);
    BeginsRight(s, l);
  }

  ghost predicate AllClosed(z: State) {
    forall r :: r in z.requests ==> z.requests[r].outcome != Open
  }

  ghost predicate NoneFailed(z: State) {
    forall t :: t in z.status ==> z.status[t] != Failed && z.status[t] != Cancelled
  }

  lemma BeginsRight(s: State, l: Line)
    requires TwoRunning(s, l)
    ensures Runs(s, [], s) && l.ra in s.requests && ProjectOf(s, l.ra) == l.p && l.p in s.auto
    ensures EndsAreMarked(s, []) && !Unmarked(s, l.ra)
  {
    LineRows(s, l);
    assert s.requests[l.ra] == Request(l.a, Open);
  }

  lemma NothingFailed(z: State, l: Line, sb: Status, sc: Status)
    requires OnLine(z, l) && Statuses(z, l, Deployed, sb, sc, Deployed)
    requires sb != Failed && sb != Cancelled && sc != Failed && sc != Cancelled
    ensures NoneFailed(z)
  {
  }

  lemma CompletesAll(s: State, l: Line, r1: RequestId, r2: RequestId, spare: RequestId)
    returns (n: State, w: Walk, z: State)
    requires TwoRunning(s, l) && r1 != r2 && spare !in {r1, r2} && {r1, r2, spare} !! {l.ra, l.rx}
    ensures Next(s, Complete(l.ra, 0), n) && From(w, n, z) && Marked(w) && Gentle(w) && OnLine(z, l) && AllClosed(z)
    ensures Statuses(z, l, Deployed, Deployed, Deployed, Deployed) && z.handlers == map[] && |z.log| == 2
  {
    n := FirstCompletion(s, l);
    w, z := DeliversAll(n, l, r1, r2, spare);
  }

  /** A cascade that comes to rest: two completions in a row each dispatch the next task of the line. */
  lemma CascadeComesToRest(s: State, l: Line, r1: RequestId, r2: RequestId, spare: RequestId)
    returns (n: State, after: seq<Step>, z: State)
    requires TwoRunning(s, l) && r1 != r2 && spare !in {r1, r2} && {r1, r2, spare} !! {l.ra, l.rx}
    ensures CameToRest(s, [], s, Complete(l.ra, 0), n, after, z, l.p) && |z.log| == 2
    ensures Statuses(z, l, Deployed, Deployed, Deployed, Deployed)
  {
    var w;
    n, w, z := CompletesAll(s, l, r1, r2, spare);
    NothingFailed(z, l, Deployed, Deployed);
    EndsAtRest(s, l, n, w, z);
    EndsAtMarkedRest(s, l, n, w, z);
    after := w.acts;
  }

  // -------- a task lost in flight --------

  /** One of two handlers marks its task and ends. */
  lemma MarksAndCloses(s: State, p: ProjectId, t: TaskId, r: RequestId, other: Handler, spare: RequestId)
    returns (w: Walk, z: State)
    requires WellFormed(s) && t in s.plan.rows && spare !in s.requests
    requires s.handlers == map[0 := Handler(p, Marking(t, r, [])), 1 := other]
    ensures From(w, s, z) && Gentle(w) && WellFormed(z) && SameElse(s, z)
    ensures z.status == s.status[t := Dispatched] && z.requests == s.requests && z.handlers == map[1 := other]
  {
    var w1, m := Marks(s, 0, p, t, r);
    var w2;
    w2, z := Closes(m, 0, p, spare);
    w := Joined(w1, w2, s, m, z);
  }

  /** The request of `b` completes before its handler marks it; the late mark stays. */
  lemma LosesTheDeploy(s: State, l: Line, r1: RequestId, spare: RequestId)
    returns (w: Walk, z: State)
    requires OnLine(s, l) && Statuses(s, l, Deployed, Backlog, Backlog, InProgress) && spare !in s.requests
    requires r1 in s.requests && s.requests[r1] == Request(l.b, Open)
    requires s.handlers == map[0 := Handler(l.p, Marking(l.b, r1, []))]
    ensures From(w, s, z) && Gentle(w) && OnLine(z, l)
    ensures Statuses(z, l, Deployed, Dispatched, Backlog, InProgress)
    ensures z.requests == s.requests[r1 := Request(l.b, Completed)] && z.handlers == map[1 := Handler(l.p, Woken)]
  {
    var w1, n := CompletesUnmarked(s, l, r1);
    LineRows(n, l);
    var w2;
    w2, z := MarksAndCloses(n, l.p, l.b, r1, Handler(l.p, Woken), spare);
    w := Joined(w1, w2, s, n, z);
  }

  /** The handler that the completion woke finds nothing, since `b` is not deployed any more. */
  lemma EndsInVain(s: State, l: Line, spare: RequestId)
    returns (w: Walk, z: State)
    requires OnLine(s, l) && Statuses(s, l, Deployed, Dispatched, Backlog, InProgress)
    requires s.handlers == map[1 := Handler(l.p, Woken)] && l.rx in s.requests
    requires s.requests[l.rx] == Request(l.x, Open) && spare !in s.requests
    ensures From(w, s, z) && Gentle(w) && OnLine(z, l)
    ensures Statuses(z, l, Deployed, Dispatched, Backlog, Deployed)
    ensures z.requests == s.requests[l.rx := Request(l.x, Completed)] && z.handlers == map[]
  {
    ReadyOnLine(s, l);
    var w1, m := Idles(s, 1, l.p, spare);
    var w2;
    w2, z := WindsUp(m, l, Dispatched, Backlog, spare);
    w := Joined(w1, w2, s, m, z);
  }

  /** The hypothesis on marks is needed: this run rests, undisturbed and without a failure, from a start
      in which nothing is stuck, and yet `b` is in flight for good and `c` was never dispatched. */
  lemma LateMarkLosesWork(s: State, l: Line, r1: RequestId, spare: RequestId)
    returns (n: State, after: seq<Step>, z: State)
    requires TwoRunning(s, l) && r1 != spare && {r1, spare} !! {l.ra, l.rx}
    ensures Rested(s, [], s, Complete(l.ra, 0), n, after, z, l.p)
    ensures forall held :: !Stuck(s.plan, s.status, l.p, held)
    ensures Statuses(z, l, Deployed, Dispatched, Backlog, Deployed) && Listed(z.plan, l.p, l.b)
    ensures Listed(z.plan, l.p, l.c)
  {
    n := FirstCompletion(s, l);
    var w;
    w, z := LosesAndEnds(n, l, r1, spare);
    NothingFailed(z, l, Dispatched, Backlog);
    EndsAtRest(s, l, n, w, z);
    after := w.acts;
    LineIsListed(z.plan, l);
    NothingStuck(s, l);
  }

  lemma SubmitsAndLoses(s: State, l: Line, r1: RequestId, spare: RequestId)
    returns (w: Walk, z: State)
    requires OnLine(s, l) && Statuses(s, l, Deployed, Backlog, Backlog, InProgress) && s.log == []
    requires s.handlers == map[0 := Handler(l.p, Woken)] && r1 !in s.requests && spare !in s.requests && r1 != spare
    requires l.rx in s.requests && s.requests[l.rx] == Request(l.x, Open) && OthersClosed(s, l.rx)
    ensures From(w, s, z) && Gentle(w) && OnLine(z, l)
    ensures Statuses(z, l, Deployed, Dispatched, Backlog, InProgress) && z.handlers == map[1 := Handler(l.p, Woken)]
    ensures l.rx in z.requests && z.requests[l.rx] == Request(l.x, Open) && OthersClosed(z, l.rx)
    ensures spare !in z.requests
  {
    var w1, m := SubmittedOnce(s, l, r1);
    var w2;
    w2, z := LosesTheDeploy(m, l, r1, spare);
    w := Joined(w1, w2, s, m, z);
  }

  lemma LosesAndEnds(s: State, l: Line, r1: RequestId, spare: RequestId)
    returns (w: Walk, z: State)
    requires OnLine(s, l) && Statuses(s, l, Deployed, Backlog, Backlog, InProgress) && s.log == []
    requires s.handlers == map[0 := Handler(l.p, Woken)] && r1 !in s.requests && spare !in s.requests && r1 != spare
    requires l.rx in s.requests && s.requests[l.rx] == Request(l.x, Open) && OthersClosed(s, l.rx)
    ensures From(w, s, z) && Gentle(w) && OnLine(z, l) && AllClosed(z)
    ensures Statuses(z, l, Deployed, Dispatched, Backlog, Deployed) && z.handlers == map[]
  {
    var w1, m := SubmitsAndLoses(s, l, r1, spare);
    var w2;
    w2, z := EndsInVain(m, l, spare);
    w := Joined(w1, w2, s, m, z);
  }

  lemma NothingStuck(s: State, l: Line)
    requires OnLine(s, l)
    ensures forall held :: !Stuck(s.plan, s.status, l.p, held)
  {
    LineIsListed(s.plan, l);
    var rank: TaskId -> nat := t => if t == l.c then 2 else if t == l.b then 1 else 0;
    assert AcyclicFinalized(s.plan, l.p, rank);
    AcyclicIsNeverStuck(s.plan, s.status, l.p, rank);
  }
}
