/** The check for circular reporting chains: from every agent the chain of superiors is walked until it
    ends or comes back to somebody already visited. */
module ReportingChains {
  import Common

  /** Who reports to whom; an empty name is no superior. */
  type Reports = map<string, string>

  /** The superior of a name; somebody unknown has none. */
  function Superior(r: Reports, name: string): string {
    if name != "" && name in r then r[name] else ""
  }

  /** The n-th superior. */
  function Follow(r: Reports, name: string, n: nat): string {
    if n == 0 then name else Superior(r, Follow(r, name, n - 1))
  }

  /** Following the chain never reaches an empty superior. */
  ghost predicate Endless(r: Reports, name: string) {
    forall n: nat :: Follow(r, name, n) != ""
  }

  lemma {:induction false} EndedStaysEnded(r: Reports, name: string, n: nat, m: nat)
    requires n <= m && Follow(r, name, n) == ""
    ensures Follow(r, name, m) == ""
  {
    if n < m { EndedStaysEnded(r, name, n, m - 1); }
  }

  lemma {:induction false} RepeatsForever(r: Reports, name: string, i: nat, j: nat, n: nat)
    requires i < j && Follow(r, name, i) == Follow(r, name, j) && Follow(r, name, j) != ""
    ensures Follow(r, name, n) != ""
    decreases n
  {
    if n <= j {
      if Follow(r, name, n) == "" { EndedStaysEnded(r, name, n, j); }
    } else {
      Shifted(r, name, i, j, n - j);
      RepeatsForever(r, name, i, j, n - (j - i));
    }
  }

  lemma {:induction false} Shifted(r: Reports, name: string, i: nat, j: nat, d: nat)
    requires Follow(r, name, i) == Follow(r, name, j)
    ensures Follow(r, name, i + d) == Follow(r, name, j + d)
  {
    if d > 0 { Shifted(r, name, i, j, d - 1); }
  }

  /** The j-th superior is the i-th one again. */
  predicate ComesBack(r: Reports, name: string, i: nat, j: nat) {
    i < j && Follow(r, name, i) == Follow(r, name, j) && Follow(r, name, j) != ""
  }

  lemma ComingBackIsEndless(r: Reports, name: string, i: nat, j: nat)
    requires ComesBack(r, name, i, j)
    ensures Endless(r, name)
  {
    forall n: nat ensures Follow(r, name, n) != "" { RepeatsForever(r, name, i, j, n); }
  }

  ghost predicate Distinct(r: Reports, name: string, n: nat) {
    forall i: nat, j: nat :: i < j < n ==> Follow(r, name, i) != Follow(r, name, j)
  }

  /** There are not more different superiors than agents. */
  lemma TooManyToBeDistinct(r: Reports, name: string)
    requires Follow(r, name, |r| + 1) != ""
    ensures exists i: nat, j: nat :: ComesBack(r, name, i, j)
  {
    var n := |r| + 1;
    KnownUntil(r, name, n);
    SeenIsKnown(r, name, n);
    Subset(Seen(r, name, n), r.Keys);
    if Distinct(r, name, n) { SeenCount(r, name, n); }
    var i: nat, j: nat :| i < j < n && Follow(r, name, i) == Follow(r, name, j);
    if Follow(r, name, j) == "" { EndedStaysEnded(r, name, j, n); }
    assert ComesBack(r, name, i, j);
  }

  /** A chain is endless exactly when it comes back to somebody. */
  lemma EndlessIffItComesBack(r: Reports, name: string)
    ensures Endless(r, name) <==> exists i: nat, j: nat :: ComesBack(r, name, i, j)
  {
    if Endless(r, name) { TooManyToBeDistinct(r, name); }
    if i: nat, j: nat :| ComesBack(r, name, i, j) { ComingBackIsEndless(r, name, i, j); }
  }

  /** Everybody on the way to the n-th superior. */
  function Seen(r: Reports, name: string, n: nat): set<string> {
    if n == 0 then {} else Seen(r, name, n - 1) + {Follow(r, name, n - 1)}
  }

  lemma {:induction false} SeenFrom(r: Reports, name: string, n: nat, x: string) returns (i: nat)
    requires x in Seen(r, name, n)
    ensures i < n && Follow(r, name, i) == x
  {
    if x == Follow(r, name, n - 1) { i := n - 1; } else { i := SeenFrom(r, name, n - 1, x); }
  }

  lemma {:induction false} SeenCount(r: Reports, name: string, n: nat)
    requires Distinct(r, name, n)
    ensures |Seen(r, name, n)| == n
  {
    if n > 0 {
      SeenCount(r, name, n - 1);
      var x := Follow(r, name, n - 1);
      if x in Seen(r, name, n - 1) { var i := SeenFrom(r, name, n - 1, x); }
    }
  }

  /** Somebody who has a superior is known. */
  lemma KnownUntil(r: Reports, name: string, n: nat)
    requires Follow(r, name, n) != ""
    ensures forall i: nat :: i < n ==> Follow(r, name, i) in r
  {
    forall i: nat | i < n ensures Follow(r, name, i) in r {
      var next := Follow(r, name, i + 1);
      if next == "" { EndedStaysEnded(r, name, i + 1, n); }
      assert next == Superior(r, Follow(r, name, i));
    }
  }

  lemma SeenIsKnown(r: Reports, name: string, n: nat)
    requires forall i: nat :: i < n ==> Follow(r, name, i) in r
    ensures Seen(r, name, n) <= r.Keys
  {
    forall x | x in Seen(r, name, n) ensures x in r { var i := SeenFrom(r, name, n, x); }
  }

  lemma {:induction false} Subset<T>(a: set<T>, b: set<T>)
    requires a <= b
    ensures |a| <= |b|
  {
    if a != {} {
      var x :| x in a;
      Subset(a - {x}, b - {x});
    }
  }

  /** Whether the chain is endless shows within the number of agents plus one superiors. */
  lemma EndlessShowsSoon(r: Reports, name: string)
    ensures Endless(r, name) <==> Follow(r, name, |r| + 1) != ""
  {
    if Follow(r, name, |r| + 1) != "" {
      TooManyToBeDistinct(r, name);
      EndlessIffItComesBack(r, name);
    }
  }

  lemma OneMoreVisited<T>(keys: set<T>, visited: set<T>, x: T)
    requires x !in visited
    ensures |visited + {x}| == |visited| + 1
    ensures if x in keys then |keys - (visited + {x})| == |keys - visited| - 1
            else |keys - (visited + {x})| == |keys - visited|
  {
    assert keys - (visited + {x}) == (keys - visited) - {x};
  }

  /** Adding the next one to those visited. */
  lemma NextVisited(r: Reports, name: string, n: nat, visited: set<string>)
    requires visited == Seen(r, name, n) && visited <= r.Keys && Follow(r, name, n) !in visited
    ensures var x := Follow(r, name, n);
            && visited + {x} == Seen(r, name, n + 1) && |visited + {x}| == |visited| + 1
            && Superior(r, x) == Follow(r, name, n + 1)
            && (Superior(r, x) != "" ==> visited + {x} <= r.Keys && |r.Keys - (visited + {x})| < |r.Keys - visited|)
            && |r.Keys - (visited + {x})| <= |r.Keys - visited|
  {
    OneMoreVisited(r.Keys, visited, Follow(r, name, n));
  }

  lemma SeenAgainIsEndless(r: Reports, name: string, n: nat)
    requires Follow(r, name, n) in Seen(r, name, n) && Follow(r, name, n) != ""
    ensures Endless(r, name)
  {
    var i := SeenFrom(r, name, n, Follow(r, name, n));
    ComingBackIsEndless(r, name, i, n);
  }

  /** Walks one chain; true if it comes back to somebody, which is exactly when it is endless. The walk
      takes at most one step more than there are agents. */
  method WalkChain(r: Reports, name: string) returns (circular: bool, steps: nat)
    ensures circular <==> Endless(r, name)
    ensures steps <= |r| + 1
  {
    var visited: set<string> := {};
    var current := name;
    steps := 0;
    while current != ""
      invariant current == Follow(r, name, steps) && visited == Seen(r, name, steps) && |visited| == steps
      invariant current != "" ==> visited <= r.Keys
      invariant steps <= |r| + 1
      decreases |r.Keys - visited| + if current == "" then 0 else 1
    {
      Subset(visited, r.Keys);
      if current in visited {
        SeenAgainIsEndless(r, name, steps);
        return true, steps + 1;
      }
      NextVisited(r, name, steps, visited);
      visited := visited + {current};
      current := Superior(r, current);
      steps := steps + 1;
    }
    return false, steps;
  }

  ghost function Circular(r: Reports, agents: seq<string>): seq<string> {
    if agents == [] then []
    else (if Endless(r, agents[0]) then [agents[0]] else []) + Circular(r, agents[1..])
  }

  lemma NextError(r: Reports, errors: seq<string>, todo: seq<string>)
    requires todo != []
    ensures errors + Circular(r, todo) ==
              (if Endless(r, todo[0]) then errors + [todo[0]] else errors) + Circular(r, todo[1..])
  {
    var rest := Circular(r, todo[1..]);
    if Endless(r, todo[0]) {
      Common.Assoc(errors, [todo[0]], rest);
    } else {
      assert [] + rest == rest;
    }
  }

  /** Records an error for every agent whose chain is endless, in order, and for nobody else. */
  method ValidateCircularDelegation(r: Reports, agents: seq<string>) returns (errors: seq<string>)
    ensures errors == Circular(r, agents)
  {
    errors := [];
    var todo := agents;
    while todo != []
      invariant Circular(r, agents) == errors + Circular(r, todo)
      decreases |todo|
    {
      var circular, _ := WalkChain(r, todo[0]);
      NextError(r, errors, todo);
      if circular { errors := errors + [todo[0]]; }
      todo := todo[1..];
    }
  }
}
