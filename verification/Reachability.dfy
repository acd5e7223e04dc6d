/** The validator's search for states no goto path leads to. */
module Reachability {
  import opened Model
  import opened Names
  import opened Scenarios

  ghost predicate Path(s: RawScenario, p: seq<string>) {
    |p| > 0 && p[0] == s.initial && forall i :: 0 <= i < |p| - 1 ==> Edge(s, p[i], p[i + 1])
  }

  /** Some goto path leads from the initial state to `x`. */
  ghost predicate Reachable(s: RawScenario, x: string) {
    exists p :: Path(s, p) && p[|p| - 1] == x
  }

  lemma InitialIsReachable(s: RawScenario)
    ensures Reachable(s, s.initial)
  {
    assert Path(s, [s.initial]) && [s.initial][0] == s.initial;
  }

  lemma ReachableExtends(s: RawScenario, a: string, b: string)
    requires Reachable(s, a) && Edge(s, a, b)
    ensures Reachable(s, b)
  {
    var p :| Path(s, p) && p[|p| - 1] == a;
    assert Path(s, p + [b]) && (p + [b])[|p + [b]| - 1] == b;
  }

  /** A set that has the initial state and is closed under gotos has every path. */
  lemma {:induction false} ClosedHasPaths(s: RawScenario, seen: set<string>, p: seq<string>)
    requires s.initial in seen && Path(s, p)
    requires forall a, b :: a in seen && Edge(s, a, b) ==> b in seen
    ensures p[|p| - 1] in seen
  {
    if |p| > 1 {
      var q := p[..|p| - 1];
      assert Path(s, q);
      ClosedHasPaths(s, seen, q);
      assert Edge(s, p[|p| - 2], p[|p| - 1]);
    }
  }

  /** Every name the search can meet. */
  ghost function Universe(s: RawScenario): set<string> {
    {s.initial}
    + (set a, i | a in s.states && s.states[a].Some? && 0 <= i < |s.states[a].value.enter| :: s.states[a].value.enter[i].goto)
    + (set a, i | a in s.states && s.states[a].Some? && 0 <= i < |s.states[a].value.on| :: s.states[a].value.on[i].goto)
  }

  /** The search so far: everything met is reachable, and what a visited state
      leads to is visited or waiting. */
  ghost predicate Searching(s: RawScenario, visited: set<string>, queue: seq<string>) {
    && (s.initial in visited || s.initial in queue)
    && visited <= Universe(s) && (forall x :: x in queue ==> x in Universe(s))
    && (forall x :: x in visited || x in queue ==> Reachable(s, x))
    && (forall a, b :: a in visited && Edge(s, a, b) ==> b in visited || b in queue)
  }

  /** The unvisited states a state's gotos lead to, in order. */
  method Successors(s: RawScenario, cur: string, visited: set<string>) returns (next: seq<string>)
    requires cur in s.states && s.states[cur].Some?
    ensures forall b :: b in next <==> Edge(s, cur, b) && b !in visited
  {
    var st := s.states[cur].value;
    next := [];
    for i := 0 to |st.enter|
      invariant forall b :: b in next <==> b != "" && b !in visited && exists k :: 0 <= k < i && st.enter[k].goto == b
    {
      if st.enter[i].goto != "" && st.enter[i].goto !in visited {
        next := next + [st.enter[i].goto];
      }
    }
    ghost var front := next;
    for i := 0 to |st.on|
      invariant forall b :: b in next <==> b in front || (b != "" && b !in visited && exists k :: 0 <= k < i && st.on[k].goto == b)
    {
      if st.on[i].goto != "" && st.on[i].goto !in visited {
        next := next + [st.on[i].goto];
      }
    }
  }

  lemma SearchGoesOn(s: RawScenario, visited: set<string>, queue: seq<string>, next: seq<string>)
    requires Searching(s, visited, queue) && queue != [] && queue[0] !in visited
    requires forall b :: b in next <==> Edge(s, queue[0], b) && b !in visited + {queue[0]}
    ensures Searching(s, visited + {queue[0]}, queue[1..] + next)
  {
    hide Edge, Reachable;
    var cur := queue[0];
    assert queue == [cur] + queue[1..];
    forall x | x in next ensures x in Universe(s) && Reachable(s, x) {
      EdgeStays(s, cur, x);
      ReachableExtends(s, cur, x);
    }
  }

  lemma EdgeStays(s: RawScenario, a: string, b: string)
    requires Edge(s, a, b)
    ensures b in Universe(s)
  {
  }

  lemma SearchSkips(s: RawScenario, visited: set<string>, queue: seq<string>)
    requires Searching(s, visited, queue) && queue != [] && queue[0] in visited
    ensures Searching(s, visited, queue[1..])
  {
    hide Edge, Reachable, Universe;
    assert queue == [queue[0]] + queue[1..];
  }

  lemma SearchEnds(s: RawScenario, visited: set<string>)
    requires Searching(s, visited, [])
    ensures forall x :: x in visited <==> Reachable(s, x)
  {
    hide Edge, Universe;
    forall x | Reachable(s, x) ensures x in visited {
      var p :| Path(s, p) && p[|p| - 1] == x;
      ClosedHasPaths(s, visited, p);
    }
  }

  /** Breadth-first search from the initial state. */
  method Visit(s: RawScenario) returns (visited: set<string>)
    ensures forall x :: x in visited <==> Reachable(s, x)
  {
    hide Searching, Edge, Reachable;
    visited := {};
    var queue := [s.initial];
    assert Searching(s, visited, queue) by { SearchStarts(s); }
    while queue != []
      invariant Searching(s, visited, queue)
      decreases Universe(s) - visited, |queue|
    {
      var cur := queue[0];
      if cur in visited {
        SearchSkips(s, visited, queue);
        queue := queue[1..];
      } else {
        var next := [];
        if cur in s.states && s.states[cur].Some? {
          next := Successors(s, cur, visited + {cur});
        } else {
          NoEdges(s, cur);
        }
        SearchGoesOn(s, visited, queue, next);
        HeadInUniverse(s, visited, queue);
        visited, queue := visited + {cur}, queue[1..] + next;
      }
    }
    SearchEnds(s, visited);
  }

  lemma SearchStarts(s: RawScenario)
    ensures Searching(s, {}, [s.initial])
  {
    InitialIsReachable(s);
  }

  lemma HeadInUniverse(s: RawScenario, visited: set<string>, queue: seq<string>)
    requires Searching(s, visited, queue) && queue != []
    ensures queue[0] in Universe(s)
  {
  }

  lemma NoEdges(s: RawScenario, a: string)
    requires !(a in s.states && s.states[a].Some?)
    ensures forall b :: !Edge(s, a, b)
  {
  }

  /** The warnings of a scenario with an initial state: exactly the states that no
      goto path reaches, in order. */
  ghost predicate Warns(s: RawScenario, out: seq<string>) {
    && (forall x :: x in out <==> x in s.states && !Reachable(s, x))
    && (forall i, j :: 0 <= i < j < |out| ==> Less(out[i], out[j]))
  }

  /** The names the validator warns about. Without a known initial state it warns
      about none. */
  method UnreachableStates(s: RawScenario) returns (out: seq<string>)
    ensures s.initial !in s.states ==> out == []
    ensures s.initial in s.states ==> Warns(s, out)
  {
    if s.initial !in s.states {
      return [];
    }
    var visited := Visit(s);
    out := SortedNames(set name | name in s.states && name !in visited);
  }

  /** They do not depend on the order of the scenario's maps. */
  lemma WarningsAreDeterministic(s: RawScenario, a: seq<string>, b: seq<string>)
    requires Warns(s, a) && Warns(s, b)
    ensures a == b
  {
    hide Reachable, Less;
    ListsIsUnique(a, b, set x | x in s.states && !Reachable(s, x));
  }
}
