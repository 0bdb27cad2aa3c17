/** The check for cyclic dependencies that runs when a task list is persisted: a depth-first search with
    three colours and an explicit stack. */
module TaskCycles {
  import opened Common
  import opened CascadeModel
  import opened CascadeQuiescence
  import opened CascadeDelivery

  /** What each task of a list waits for. */
  type Graph = map<TaskId, seq<TaskId>>

  function GraphOf(plan: Plan, p: ProjectId, version: nat): Graph {
    map t | t in plan.rows && plan.rows[t].project == p && plan.rows[t].version == version :: plan.rows[t].deps
  }

  /** A dependency that resolves within the list; dangling ones do not count. */
  predicate Edge(g: Graph, t: TaskId, d: TaskId) {
    t in g && d in g && d in g[t]
  }

  predicate Link(g: Graph, path: seq<TaskId>, i: nat)
    requires i + 1 < |path|
  {
    Edge(g, path[i], path[i + 1])
  }

  ghost predicate IsPath(g: Graph, path: seq<TaskId>) {
    forall i :: 0 <= i < |path| - 1 ==> Link(g, path, i)
  }

  ghost predicate IsCycle(g: Graph, path: seq<TaskId>) {
    |path| >= 2 && path[0] == path[|path| - 1] && IsPath(g, path)
  }

  /** A number for every task that falls along every dependency. */
  ghost predicate Ranks(g: Graph, rank: map<TaskId, nat>) {
    forall t {:trigger RankedAt(g, rank, t)} :: t in g ==> RankedAt(g, rank, t)
  }

  predicate RankedAt(g: Graph, rank: map<TaskId, nat>, t: TaskId)
    requires t in g
  {
    t in rank && forall d :: d in g[t] && d in g ==> d in rank && rank[d] < rank[t]
  }

  lemma {:induction false} RanksFall(g: Graph, rank: map<TaskId, nat>, path: seq<TaskId>, i: nat)
    requires Ranks(g, rank) && IsPath(g, path) && |path| >= 2 && i < |path|
    ensures path[0] in rank && path[i] in g && path[i] in rank && rank[path[i]] + i <= rank[path[0]]
  {
    if i == 0 {
      assert Link(g, path, 0) && RankedAt(g, rank, path[0]);
    } else {
      RanksFall(g, rank, path, i - 1);
      assert Link(g, path, i - 1) && RankedAt(g, rank, path[i - 1]);
    }
  }

  lemma RanksMeanNoCycle(g: Graph, rank: map<TaskId, nat>, path: seq<TaskId>)
    requires Ranks(g, rank)
    ensures !IsCycle(g, path)
  {
    if IsCycle(g, path) { RanksFall(g, rank, path, |path| - 1); }
  }

  // -------- the search --------

  datatype Color = White | Gray | Black

  /** A task on the stack and its dependencies not looked at yet. */
  datatype Frame = Frame(task: TaskId, remaining: seq<TaskId>)

  datatype Search = Search(color: map<TaskId, Color>, stack: seq<Frame>, path: seq<TaskId>)

  predicate RanksBelow(rank: map<TaskId, nat>, n: nat) {
    forall t :: t in rank ==> rank[t] < n
  }

  /** The black tasks are ranked in the order in which they were finished. */
  ghost predicate BlackIsRanked(g: Graph, color: map<TaskId, Color>, rank: map<TaskId, nat>)
    requires color.Keys == g.Keys
  {
    && (forall t :: t in g ==> (color[t] == Black <==> t in rank))
    && (forall t :: t in rank ==> t in g) && RanksBelow(rank, |rank|)
    && (forall t {:trigger RankedAt(g, rank, t)} :: t in rank && t in g ==> RankedAt(g, rank, t))
  }

  /** Each dependency of the task at this place of the stack is still to be looked at, black, or next. */
  predicate FrameOk(g: Graph, s: Search, i: nat)
    requires s.color.Keys == g.Keys && i < |s.stack| && |s.path| == |s.stack|
  {
    var Frame(t, remaining) := s.stack[i];
    && s.path[i] == t && t in g && s.color[t] == Gray
    && (forall d :: d in remaining ==> d in g[t])
    && (forall d :: d in g[t] && d in g ==>
          d in remaining || s.color[d] == Black || (i + 1 < |s.path| && s.path[i + 1] == d))
  }

  ghost predicate SearchOk(g: Graph, s: Search, rank: map<TaskId, nat>) {
    StackOk(g, s) && BlackIsRanked(g, s.color, rank) && GrayIsOnPath(s) && IsPath(g, s.path)
  }

  ghost predicate StackOk(g: Graph, s: Search) {
    && s.color.Keys == g.Keys && |s.path| == |s.stack| && Distinct(s.path)
    && forall i :: 0 <= i < |s.stack| ==> FrameOk(g, s, i)
  }

  ghost predicate GrayIsOnPath(s: Search) {
    forall t :: t in s.color && s.color[t] == Gray ==> t in s.path
  }

  function Top(s: Search): Frame
    requires s.stack != []
  {
    s.stack[|s.stack| - 1]
  }

  /** The top task has no dependency left to look at. */
  function Finish(s: Search): Search
    requires s.stack != [] && s.path != []
  {
    Search(s.color[Top(s).task := Black], s.stack[..|s.stack| - 1], s.path[..|s.path| - 1])
  }

  /** The first dependency left is dangling or black. */
  function Skip(s: Search): Search
    requires s.stack != [] && Top(s).remaining != []
  {
    s.(stack := s.stack[..|s.stack| - 1] + [Frame(Top(s).task, Top(s).remaining[1..])])
  }

  /** The first dependency left is white. */
  function Descend(g: Graph, s: Search): Search
    requires s.stack != [] && Top(s).remaining != [] && Top(s).remaining[0] in g
  {
    var d := Top(s).remaining[0];
    Search(s.color[d := Gray], Skip(s).stack + [Frame(d, g[d])], s.path + [d])
  }

  lemma RanksOneMore(g: Graph, color: map<TaskId, Color>, rank: map<TaskId, nat>, t: TaskId)
    requires color.Keys == g.Keys && BlackIsRanked(g, color, rank) && t in g && color[t] != Black
    requires forall d :: d in g[t] && d in g ==> color[d] == Black
    ensures BlackIsRanked(g, color[t := Black], rank[t := |rank|])
  {
    OneMoreRank(rank, t);
    forall u | u in rank[t := |rank|] && u in g ensures RankedAt(g, rank[t := |rank|], u) {
      if u == t { NewRank(g, rank, t); } else { OldRank(g, rank, u, t); }
    }
  }

  lemma OneMoreRank(rank: map<TaskId, nat>, t: TaskId)
    requires t !in rank && RanksBelow(rank, |rank|)
    ensures |rank[t := |rank|]| == |rank| + 1 && RanksBelow(rank[t := |rank|], |rank| + 1)
  {
  }

  lemma NewRank(g: Graph, rank: map<TaskId, nat>, t: TaskId)
    requires t in g && t !in rank && RanksBelow(rank, |rank|)
    requires forall d :: d in g[t] && d in g ==> d in rank
    ensures RankedAt(g, rank[t := |rank|], t)
  {
  }

  lemma OldRank(g: Graph, rank: map<TaskId, nat>, u: TaskId, t: TaskId)
    requires u in g && RankedAt(g, rank, u) && t !in rank
    ensures RankedAt(g, rank[t := |rank|], u)
  {
  }

  lemma FinishKeeps(g: Graph, s: Search, rank: map<TaskId, nat>)
    requires SearchOk(g, s, rank) && s.stack != [] && Top(s).remaining == []
    ensures SearchOk(g, Finish(s), rank[Top(s).task := |rank|])
  {
    FinishKeepsStack(g, s);
    FinishedIsRanked(g, s, rank);
    FinishKeepsGray(g, s);
    FinishKeepsPath(g, s, rank);
  }

  lemma FinishedIsRanked(g: Graph, s: Search, rank: map<TaskId, nat>)
    requires SearchOk(g, s, rank) && s.stack != [] && Top(s).remaining == []
    ensures Top(s).task in g && BlackIsRanked(g, Finish(s).color, rank[Top(s).task := |rank|])
  {
    FinishedTop(g, s);
    RanksOneMore(g, s.color, rank, Top(s).task);
  }

  lemma FinishKeepsPath(g: Graph, s: Search, rank: map<TaskId, nat>)
    requires SearchOk(g, s, rank) && s.stack != []
    ensures IsPath(g, Finish(s).path)
  {
    ShorterPath(g, s.path);
  }

  lemma FinishedTop(g: Graph, s: Search)
    requires StackOk(g, s) && s.stack != [] && Top(s).remaining == []
    ensures var t := Top(s).task; t in g && s.color[t] == Gray && t == s.path[|s.path| - 1]
    ensures forall d :: d in g[Top(s).task] && d in g ==> s.color[d] == Black
  {
    assert FrameOk(g, s, |s.stack| - 1);
  }

  lemma FinishKeepsStack(g: Graph, s: Search)
    requires StackOk(g, s) && s.stack != [] && Top(s).remaining == []
    ensures StackOk(g, Finish(s))
  {
    var z, last := Finish(s), |s.stack| - 1;
    assert FrameOk(g, s, last);
    PrefixDistinct(s.path, last);
    forall i | 0 <= i < |z.stack| ensures FrameOk(g, z, i) {
      assert FrameOk(g, s, i);
      FinishKeepsFrame(g, s, i);
    }
  }

  lemma FinishKeepsGray(g: Graph, s: Search)
    requires StackOk(g, s) && GrayIsOnPath(s) && s.stack != [] && Top(s).remaining == []
    ensures GrayIsOnPath(Finish(s))
  {
    FinishedTop(g, s);
    LastOrFront(s.path);
  }

  lemma LastOrFront<T>(s: seq<T>)
    requires s != []
    ensures forall x :: x in s <==> x == s[|s| - 1] || x in s[..|s| - 1]
  {
    assert s == s[..|s| - 1] + [s[|s| - 1]];
  }

  lemma ShorterPath(g: Graph, path: seq<TaskId>)
    requires path != [] && IsPath(g, path)
    ensures IsPath(g, path[..|path| - 1])
  {
    var front := path[..|path| - 1];
    forall i | 0 <= i < |front| - 1 ensures Link(g, front, i) { assert Link(g, path, i); }
  }

  lemma FinishKeepsFrame(g: Graph, s: Search, i: nat)
    requires s.color.Keys == g.Keys && |s.path| == |s.stack| && i + 1 < |s.stack| && Distinct(s.path)
    requires FrameOk(g, s, i) && FrameOk(g, s, |s.stack| - 1)
    ensures FrameOk(g, Finish(s), i)
  {
    NoRepeats(s.path);
    assert s.path[i] != s.path[|s.path| - 1];
  }

  lemma SkipKeeps(g: Graph, s: Search, rank: map<TaskId, nat>)
    requires SearchOk(g, s, rank) && s.stack != [] && Top(s).remaining != []
    requires Top(s).remaining[0] in g ==> s.color[Top(s).remaining[0]] == Black
    ensures SearchOk(g, Skip(s), rank)
  {
    var z, last := Skip(s), |s.stack| - 1;
    forall i | 0 <= i < |z.stack| ensures FrameOk(g, z, i) {
      assert FrameOk(g, s, i);
      if i == last { HeadOrRest(Top(s).remaining); }
    }
  }

  lemma HeadOrRest<T>(s: seq<T>)
    requires s != []
    ensures forall x :: x in s <==> x == s[0] || x in s[1..]
  {
  }

  lemma DescendKeeps(g: Graph, s: Search, rank: map<TaskId, nat>)
    requires SearchOk(g, s, rank) && s.stack != [] && Top(s).remaining != []
    requires Top(s).remaining[0] in g && s.color[Top(s).remaining[0]] == White
    ensures SearchOk(g, Descend(g, s), rank)
  {
    var d := Top(s).remaining[0];
    NextIsADependency(g, s);
    NotOnThePath(g, s, d);
    DescendKeepsStack(g, s);
    LongerPath(g, s.path, d);
    WhiteIsNotRanked(g, s.color, rank, d);
  }

  lemma NextIsADependency(g: Graph, s: Search)
    requires StackOk(g, s) && s.stack != [] && Top(s).remaining != []
    ensures Top(s).remaining[0] in g ==> Edge(g, s.path[|s.path| - 1], Top(s).remaining[0])
  {
    assert FrameOk(g, s, |s.stack| - 1);
  }

  lemma WhiteIsNotRanked(g: Graph, color: map<TaskId, Color>, rank: map<TaskId, nat>, d: TaskId)
    requires color.Keys == g.Keys && BlackIsRanked(g, color, rank) && d in g && color[d] == White
    ensures BlackIsRanked(g, color[d := Gray], rank)
  {
  }

  lemma DescendKeepsStack(g: Graph, s: Search)
    requires StackOk(g, s) && s.stack != [] && Top(s).remaining != [] && Top(s).remaining[0] !in s.path
    requires Top(s).remaining[0] in g && s.color[Top(s).remaining[0]] == White
    ensures StackOk(g, Descend(g, s))
  {
    var z, last := Descend(g, s), |s.stack| - 1;
    AppendDistinct(s.path, Top(s).remaining[0]);
    forall i | 0 <= i < |z.stack| ensures FrameOk(g, z, i) {
      if i <= last { assert FrameOk(g, s, i); }
      DescendKeepsFrame(g, s, i);
    }
  }

  lemma LongerPath(g: Graph, path: seq<TaskId>, d: TaskId)
    requires IsPath(g, path) && path != [] && Edge(g, path[|path| - 1], d)
    ensures IsPath(g, path + [d])
  {
    var longer := path + [d];
    forall i | 0 <= i < |longer| - 1 ensures Link(g, longer, i) {
      if i < |path| - 1 { assert Link(g, path, i); }
    }
  }

  lemma DescendKeepsFrame(g: Graph, s: Search, i: nat)
    requires s.color.Keys == g.Keys && |s.path| == |s.stack| > 0 && Top(s).remaining != [] && i <= |s.stack|
    requires Top(s).remaining[0] in g && s.color[Top(s).remaining[0]] == White
    requires i < |s.stack| ==> FrameOk(g, s, i)
    ensures FrameOk(g, Descend(g, s), i)
  {
    if i == |s.stack| - 1 { HeadOrRest(Top(s).remaining); }
  }

  /** What is on the path is gray. */
  lemma NotOnThePath(g: Graph, s: Search, d: TaskId)
    requires StackOk(g, s) && d in g && s.color[d] != Gray
    ensures d !in s.path
  {
    forall i | 0 <= i < |s.path| ensures s.path[i] != d { assert FrameOk(g, s, i); }
  }

  /** The first place of a task on the path. */
  function Index(path: seq<TaskId>, t: TaskId): (i: nat)
    ensures i <= |path| && (i < |path| ==> path[i] == t)
    ensures t in path ==> i < |path|
  {
    if path == [] || path[0] == t then 0 else 1 + Index(path[1..], t)
  }

  /** A gray dependency closes a cycle. */
  lemma GrayClosesACycle(g: Graph, s: Search, d: TaskId)
    requires StackOk(g, s) && GrayIsOnPath(s) && IsPath(g, s.path) && s.stack != [] && Top(s).remaining != []
    requires d == Top(s).remaining[0] && d in g && s.color[d] == Gray
    ensures IsCycle(g, s.path[Index(s.path, d)..] + [d])
  {
    NextIsADependency(g, s);
    GrayIsFound(s, d);
    ClosesACycle(g, s.path, d);
  }

  lemma GrayIsFound(s: Search, d: TaskId)
    requires GrayIsOnPath(s) && d in s.color && s.color[d] == Gray
    ensures d in s.path
  {
  }

  lemma ClosesACycle(g: Graph, path: seq<TaskId>, d: TaskId)
    requires IsPath(g, path) && d in path && Edge(g, path[|path| - 1], d)
    ensures IsCycle(g, path[Index(path, d)..] + [d])
  {
    var k := Index(path, d);
    var cycle := path[k..] + [d];
    forall i | 0 <= i < |cycle| - 1 ensures Link(g, cycle, i) {
      if k + i < |path| - 1 { assert Link(g, path, k + i); }
    }
  }

  // -------- termination --------

  function Whites(color: map<TaskId, Color>): set<TaskId> {
    set t | t in color && color[t] == White
  }

  /** Dependencies still to be looked at, over the whole stack. */
  function Pending(stack: seq<Frame>): nat
    decreases |stack|
  {
    if stack == [] then 0 else |stack[|stack| - 1].remaining| + Pending(stack[..|stack| - 1])
  }

  lemma SkipShortens(s: Search)
    requires s.stack != [] && Top(s).remaining != []
    ensures Pending(Skip(s).stack) < Pending(s.stack)
  {
    assert Skip(s).stack[..|s.stack| - 1] == s.stack[..|s.stack| - 1];
  }

  lemma FinishShortens(s: Search)
    requires s.stack != [] && s.path != [] && Top(s).task in s.color && s.color[Top(s).task] == Gray
    ensures Whites(Finish(s).color) == Whites(s.color) && Pending(Finish(s).stack) <= Pending(s.stack)
  {
  }

  lemma DescendShortens(g: Graph, s: Search)
    requires s.stack != [] && Top(s).remaining != []
    requires Top(s).remaining[0] in g && Top(s).remaining[0] in s.color && s.color[Top(s).remaining[0]] == White
    ensures Whites(Descend(g, s).color) < Whites(s.color)
  {
    assert Top(s).remaining[0] in Whites(s.color);
  }

  // -------- the method --------

  /** Before and after the search from one task nothing is gray. */
  ghost predicate NothingOpen(g: Graph, color: map<TaskId, Color>, rank: map<TaskId, nat>) {
    color.Keys == g.Keys && BlackIsRanked(g, color, rank) && forall t :: t in g ==> color[t] != Gray
  }

  ghost predicate BlackStays(before: map<TaskId, Color>, after: map<TaskId, Color>) {
    before.Keys == after.Keys && forall t :: t in before && before[t] == Black ==> after[t] == Black
  }

  lemma Starting(g: Graph, color: map<TaskId, Color>, rank: map<TaskId, nat>, start: TaskId)
    requires NothingOpen(g, color, rank) && start in g && color[start] == White
    ensures SearchOk(g, Search(color[start := Gray], [Frame(start, g[start])], [start]), rank)
  {
  }

  /** Fewer white tasks, or fewer dependencies to look at, or a shorter stack. */
  ghost predicate Closer(z: Search, s: Search) {
    || Whites(z.color) < Whites(s.color)
    || (Whites(z.color) == Whites(s.color) && Pending(z.stack) < Pending(s.stack))
    || (Whites(z.color) == Whites(s.color) && Pending(z.stack) == Pending(s.stack) && |z.stack| < |s.stack|)
  }

  /** The search goes on from the same task, which is black once nothing is left of the path. */
  ghost predicate GoesOn(s: Search, z: Search) {
    && BlackStays(s.color, z.color)
    && s.path != [] &&
       if z.path != [] then z.path[0] == s.path[0] else s.path[0] in z.color && z.color[s.path[0]] == Black
  }

  lemma FinishGoesOn(g: Graph, s: Search, rank: map<TaskId, nat>)
    requires SearchOk(g, s, rank) && s.stack != [] && Top(s).remaining == []
    ensures Closer(Finish(s), s) && GoesOn(s, Finish(s))
  {
    FinishIsCloser(g, s);
    FinishedTop(g, s);
  }

  lemma FinishIsCloser(g: Graph, s: Search)
    requires StackOk(g, s) && s.stack != [] && Top(s).remaining == []
    ensures Closer(Finish(s), s)
  {
    FinishedTop(g, s);
    FinishShortens(s);
  }

  /** One look at the top of the stack. */
  method Look(g: Graph, s: Search, ghost rank: map<TaskId, nat>)
    returns (cycle: Option<seq<TaskId>>, z: Search, ghost next: map<TaskId, nat>)
    requires SearchOk(g, s, rank) && s.stack != []
    ensures cycle.Some? ==> IsCycle(g, cycle.value)
    ensures cycle.None? ==> SearchOk(g, z, next) && Closer(z, s) && GoesOn(s, z)
  {
    var Frame(task, remaining) := Top(s);
    cycle, next := None, rank;
    if remaining == [] {
      FinishKeeps(g, s, rank);
      FinishGoesOn(g, s, rank);
      next := rank[task := |rank|];
      z := Finish(s);
      return;
    }
    var d := remaining[0];
    if d in g && s.color[d] == Gray {
      GrayClosesACycle(g, s, d);
      return Some(s.path[Index(s.path, d)..] + [d]), s, rank;
    }
    if d !in g || s.color[d] == Black {
      SkipKeeps(g, s, rank);
      SkipShortens(s);
      z := Skip(s);
      return;
    }
    DescendKeeps(g, s, rank);
    DescendShortens(g, s);
    z := Descend(g, s);
  }

  /** Searches from one white task, until a cycle closes or everything it reaches is black. */
  method Explore(g: Graph, start: TaskId, before: map<TaskId, Color>, ghost ranked: map<TaskId, nat>)
    returns (cycle: Option<seq<TaskId>>, color: map<TaskId, Color>, ghost rank: map<TaskId, nat>)
    requires NothingOpen(g, before, ranked) && start in g && before[start] == White
    ensures cycle.Some? ==> IsCycle(g, cycle.value)
    ensures cycle.None? ==> NothingOpen(g, color, rank) && BlackStays(before, color) && color[start] == Black
  {
    var s := Search(before[start := Gray], [Frame(start, g[start])], [start]);
    rank := ranked;
    Starting(g, before, ranked, start);
    while s.stack != []
      invariant SearchOk(g, s, rank) && BlackStays(before, s.color)
      invariant if s.path == [] then s.color[start] == Black else s.path[0] == start
      decreases Whites(s.color), Pending(s.stack), |s.stack|
    {
      cycle, s, rank := Look(g, s, rank);
      if cycle.Some? { return cycle, s.color, rank; }
    }
    return None, s.color, rank;
  }

  /** The same from any task; one that an earlier search has reached is left alone. */
  method ExploreIfWhite(g: Graph, start: TaskId, before: map<TaskId, Color>, ghost ranked: map<TaskId, nat>)
    returns (cycle: Option<seq<TaskId>>, color: map<TaskId, Color>, ghost rank: map<TaskId, nat>)
    requires NothingOpen(g, before, ranked)
    ensures cycle.Some? ==> IsCycle(g, cycle.value)
    ensures cycle.None? ==> NothingOpen(g, color, rank) && BlackStays(before, color)
    ensures cycle.None? && start in g ==> start in color && color[start] == Black
  {
    if start !in g || before[start] != White { return None, before, ranked; }
    cycle, color, rank := Explore(g, start, before, ranked);
  }

  function AllWhite(g: Graph): (color: map<TaskId, Color>)
    ensures color.Keys == g.Keys && forall t :: t in g ==> color[t] == White
  {
    map t | t in g :: White
  }

  ghost predicate BlackUpTo(color: map<TaskId, Color>, ids: seq<TaskId>, k: nat) {
    k <= |ids| && forall j :: 0 <= j < k && ids[j] in color ==> color[ids[j]] == Black
  }

  lemma OneMoreIsBlack(before: map<TaskId, Color>, after: map<TaskId, Color>, ids: seq<TaskId>, k: nat)
    requires k < |ids| && BlackUpTo(before, ids, k) && BlackStays(before, after)
    requires ids[k] in after ==> after[ids[k]] == Black
    ensures BlackUpTo(after, ids, k + 1)
  {
  }

  /** Searches from every task that no earlier search has reached. */
  method FindCycle(g: Graph, ids: seq<TaskId>)
    returns (cycle: Option<seq<TaskId>>, ghost rank: map<TaskId, nat>)
    requires forall t :: t in g ==> t in ids
    ensures cycle.Some? ==> IsCycle(g, cycle.value)
    ensures cycle.None? ==> Ranks(g, rank)
  {
    var color := AllWhite(g);
    rank := map[];
    for k := 0 to |ids|
      invariant NothingOpen(g, color, rank) && BlackUpTo(color, ids, k)
    {
      ghost var before := color;
      cycle, color, rank := ExploreIfWhite(g, ids[k], color, rank);
      if cycle.Some? { return; }
      OneMoreIsBlack(before, color, ids, k);
    }
    AllBlack(g, ids, color, rank);
    return None, rank;
  }

  /** Whether the dependencies of a list version have a cycle, and the first one found. */
  method HasTaskCycle(plan: Plan, p: ProjectId, version: nat)
    returns (found: bool, cycle: seq<TaskId>, ghost rank: map<TaskId, nat>)
    requires ValidPlan(plan)
    ensures found <==> exists path :: IsCycle(GraphOf(plan, p, version), path)
    ensures found ==> IsCycle(GraphOf(plan, p, version), cycle)
    ensures !found ==> cycle == [] && Ranks(GraphOf(plan, p, version), rank)
  {
    var g := GraphOf(plan, p, version);
    var closed;
    closed, rank := FindCycle(g, plan.order);
    if closed.Some? { return true, closed.value, rank; }
    forall path ensures !IsCycle(g, path) { RanksMeanNoCycle(g, rank, path); }
    return false, [], rank;
  }

  lemma AllBlack(g: Graph, ids: seq<TaskId>, color: map<TaskId, Color>, rank: map<TaskId, nat>)
    requires NothingOpen(g, color, rank) && forall t :: t in g ==> t in ids
    requires BlackUpTo(color, ids, |ids|)
    ensures Ranks(g, rank)
  {
    forall t | t in g ensures RankedAt(g, rank, t) {
      assert t in ids;
      assert color[t] == Black;
    }
  }

  // -------- what the check is for --------

  /** The listing is finalized and every dependency resolves in it. */
  ghost predicate Resolved(plan: Plan, p: ProjectId)
    requires ValidPlan(plan)
  {
    forall t :: t in plan.rows && Listed(plan, p, t) ==>
      plan.rows[t].list == Finalized && forall d :: d in plan.rows[t].deps ==> Listed(plan, p, d)
  }

  function Number(rank: map<TaskId, nat>): TaskId -> nat {
    t => if t in rank then rank[t] else 0
  }

  lemma CheckedIsAcyclic(plan: Plan, p: ProjectId, rank: map<TaskId, nat>)
    requires ValidPlan(plan) && Resolved(plan, p) && Ranks(GraphOf(plan, p, Latest(plan, p)), rank)
    ensures AcyclicFinalized(plan, p, Number(rank))
  {
    var g := GraphOf(plan, p, Latest(plan, p));
    forall t | t in plan.rows && Listed(plan, p, t)
      ensures forall d :: d in plan.rows[t].deps ==> Number(rank)(d) < Number(rank)(t)
    {
      assert t in g && RankedAt(g, rank, t);
    }
  }

  /** A finalized listing that passed the check, without dangling dependencies, is deployed in full by every
      run that comes to rest with its marks followed. */
  lemma CheckedListingIsDeployed(s: State, before: seq<Step>, m: State, c: Step, n: State, after: seq<Step>, z: State,
                                 p: ProjectId, rank: map<TaskId, nat>)
    requires Rested(s, before, m, c, n, after, z, p) && Resolved(s.plan, p)
    requires Ranks(GraphOf(s.plan, p, Latest(s.plan, p)), rank)
    ensures AllDeployed(z, p) <==> MarksAreFollowed(s, before + ([c] + after), p)
  {
    CheckedIsAcyclic(s.plan, p, rank);
    AcyclicListingIsDeployed(s, before, m, c, n, after, z, p, Number(rank));
  }

  lemma OnTheCycle(g: Graph, cycle: seq<TaskId>, t: TaskId)
    requires IsCycle(g, cycle) && t in cycle
    ensures t in g && exists d :: d in g[t] && d in g && d in cycle
  {
    var i := Index(cycle, t);
    var k := if i == |cycle| - 1 then 0 else i;
    assert cycle[k] == t && Link(g, cycle, k);
    assert cycle[k + 1] in cycle;
  }

  lemma WaitsOnTheCycle(plan: Plan, p: ProjectId, cycle: seq<TaskId>, t: TaskId)
    requires ValidPlan(plan) && Latest(plan, p) != 0 && IsCycle(GraphOf(plan, p, Latest(plan, p)), cycle) && t in cycle
    ensures Listed(plan, p, t) && exists d :: d in plan.rows[t].deps && d in cycle
  {
    OnTheCycle(GraphOf(plan, p, Latest(plan, p)), cycle, t);
  }

  /** The check is needed: a cycle of listed tasks in the backlog is a stuck set. */
  lemma CycleIsStuck(plan: Plan, status: map<TaskId, Status>, p: ProjectId, cycle: seq<TaskId>, held: set<TaskId>)
    requires ValidPlan(plan) && status.Keys == plan.rows.Keys && Latest(plan, p) != 0
    requires IsCycle(GraphOf(plan, p, Latest(plan, p)), cycle)
    requires forall t :: t in held <==> t in cycle
    requires forall t :: t in held ==> t in status && status[t] == Backlog
    ensures Stuck(plan, status, p, held)
  {
    assert cycle[0] in held;
    forall t | t in held ensures Listed(plan, p, t) && exists d :: d in plan.rows[t].deps && d in held {
      WaitsOnTheCycle(plan, p, cycle, t);
    }
  }
}
