/** The Rust engine: a Problem holds a start state and a goal test, the
    moves come with the states (the State trait), and each search keeps its
    visited set and frontier in local variables.  Every search tests
    visited.contains(&next) where a state not yet visited is meant, so it
    only ever pushes states already visited, which is only the start state.
    The searches are modelled as written, with a step bound since they can
    loop for ever, and as evidently intended, with the guard negated. */
module RustSearch {
  import opened Common

  /** Problem<S, GL>: the start state and the goal test, with the moves of
      the states' State implementation. */
  datatype Problem<!S, !A> = Problem(moves: Transitions<S, A>, startState: S, isGoal: S -> bool)

  /** The heap node Node(state, depth, cost) is an Entry.  Node's Ord is
      reversed, so the max-heap BinaryHeap pops a node of least cost, and of
      least depth among those: a pops before b. */
  predicate Before<S>(a: Entry<S>, b: Entry<S>)
  {
    a.cost < b.cost || (a.cost == b.cost && a.depth < b.depth)
  }

  /** The node BinaryHeap::pop returns: none pops before it.  The heap
      picks some such node; the model fixes the earliest of them. */
  function MinIndex<S>(items: seq<Entry<S>>): (i: nat)
    requires items != []
    ensures i < |items|
    ensures forall j :: 0 <= j < |items| ==> !Before(items[j], items[i])
    ensures forall j :: 0 <= j < i ==> Before(items[i], items[j])
    decreases |items|
  {
    if |items| == 1 then 0
    else
      var k := MinIndex(items[..|items| - 1]);
      if Before(items[|items| - 1], items[k]) then |items| - 1 else k
  }

  /** What every search returns as written, given at least one step: the
      start when it is a valid goal; no end when the start is valid and has
      a self-loop, since each pop of the start pushes it again; otherwise
      None, as the only state pushed after the start is the start. */
  ghost function InvertedGuardOutcome<S, A>(p: Problem<S, A>): (r: Outcome<S>)
    ensures r.Found? <==> p.isGoal(p.startState) && p.moves.isValid(p.startState)
    ensures r.Found? ==> r.state == p.startState
    ensures r.OutOfFuel? <==> !r.Found? && p.moves.isValid(p.startState) && SelfLoop(p.moves, p.startState)
    ensures r != NullDereference
  {
    if p.isGoal(p.startState) && p.moves.isValid(p.startState) then Found(p.startState)
    else if p.moves.isValid(p.startState) && SelfLoop(p.moves, p.startState) then OutOfFuel
    else Exhausted
  }

  /** The for_each over the actions of the popped state, as written: when
      next is already visited, insert it into visited and push it at the
      front.  visited stays {start}, and only the start is pushed. */
  method PushVisited<S(==), A>(p: Problem<S, A>, state: S, visited: set<S>, queue: seq<S>)
    returns (visited': set<S>, queue': seq<S>)
    requires visited == {p.startState} && state == p.startState
    requires forall i :: 0 <= i < |queue| ==> queue[i] == p.startState
    ensures visited' == {p.startState}
    ensures forall i :: 0 <= i < |queue'| ==> queue'[i] == p.startState
    ensures queue' != [] <==> queue != [] || SelfLoop(p.moves, state)
  {
    var actions := p.moves.actions(state);
    visited', queue' := visited, queue;
    for j := 0 to |actions|
      invariant visited' == {p.startState}
      invariant forall i :: 0 <= i < |queue'| ==> queue'[i] == p.startState
      invariant queue' != [] <==> queue != [] || exists k :: 0 <= k < j && p.moves.transfer(state, actions[k]) == state
    {
      var next := p.moves.transfer(state, actions[j]);
      if next in visited' {
        visited' := visited' + {next};
        queue' := [next] + queue';
      }
    }
    if SelfLoop(p.moves, state) {
      var a :| a in actions && p.moves.transfer(state, a) == state;
      var k :| 0 <= k < |actions| && actions[k] == a;
    }
  }

  /** breadth_first_search (pop_back) and depth_first_search (pop_front) as
      written, each pop counting one of fuel steps; both push at the front. */
  method DequeSearch<S(==), A>(p: Problem<S, A>, popFront: bool, fuel: nat) returns (r: Outcome<S>)
    ensures r == if fuel == 0 then OutOfFuel else InvertedGuardOutcome(p)
  {
    var start := p.startState;
    var visited := {start};
    var queue := [start];
    var steps := 0;
    while queue != []
      invariant steps <= fuel && visited == {start}
      invariant forall i :: 0 <= i < |queue| ==> queue[i] == start
      invariant steps == 0 ==> queue == [start]
      invariant steps > 0 ==> !(p.isGoal(start) && p.moves.isValid(start))
      invariant steps > 0 ==> (queue != [] <==> p.moves.isValid(start) && SelfLoop(p.moves, start))
      decreases fuel - steps
    {
      if steps == fuel {
        return OutOfFuel;
      }
      steps := steps + 1;
      var state;
      if popFront {
        state, queue := queue[0], queue[1..];
      } else {
        state, queue := queue[|queue| - 1], queue[..|queue| - 1];
      }
      if p.isGoal(state) && p.moves.isValid(state) {
        return Found(state);
      }
      if p.moves.isValid(state) {
        visited, queue := PushVisited(p, state, visited, queue);
      }
    }
    return Exhausted;
  }

  /** e is a heap node the for_each over node's actions builds: the state
      an action leads to, one level deeper than node, priced by priority
      from node's state and that action. */
  ghost predicate Pushed<S, A>(p: Problem<S, A>, priority: (S, A) -> int, node: Entry<S>, e: Entry<S>)
  {
    exists a :: a in p.moves.actions(node.state)
      && e == Entry(p.moves.transfer(node.state, a), node.depth + 1, priority(node.state, a))
  }

  /** The for_each of the cost-ordered searches, as written: when next is
      already visited, insert it into visited and push a node one level
      deeper, priced by priority. */
  method PushVisitedNodes<S(==), A>(p: Problem<S, A>, priority: (S, A) -> int, node: Entry<S>, visited: set<S>,
                          heap: seq<Entry<S>>) returns (visited': set<S>, heap': seq<Entry<S>>)
    requires visited == {p.startState} && node.state == p.startState
    requires forall i :: 0 <= i < |heap| ==> heap[i].state == p.startState
    ensures visited' == {p.startState}
    ensures forall i :: 0 <= i < |heap'| ==> heap'[i].state == p.startState
    ensures heap' != [] <==> heap != [] || SelfLoop(p.moves, node.state)
    ensures heap <= heap'
    ensures forall i :: |heap| <= i < |heap'| ==> Pushed(p, priority, node, heap'[i])
  {
    var state := node.state;
    var actions := p.moves.actions(state);
    visited', heap' := visited, heap;
    for j := 0 to |actions|
      invariant visited' == {p.startState}
      invariant forall i :: 0 <= i < |heap'| ==> heap'[i].state == p.startState
      invariant heap' != [] <==> heap != [] || exists k :: 0 <= k < j && p.moves.transfer(state, actions[k]) == state
      invariant heap <= heap'
      invariant forall i :: |heap| <= i < |heap'| ==> Pushed(p, priority, node, heap'[i])
    {
      var next := p.moves.transfer(state, actions[j]);
      if next in visited' {
        visited' := visited' + {next};
        assert Pushed(p, priority, node, Entry(next, node.depth + 1, priority(state, actions[j])));
        heap' := heap' + [Entry(next, node.depth + 1, priority(state, actions[j]))];
      }
    }
    if SelfLoop(p.moves, state) {
      var a :| a in actions && p.moves.transfer(state, a) == state;
      var k :| 0 <= k < |actions| && actions[k] == a;
    }
  }

  /** uniform_cost_search, greedy_search and a_star_search as written: a
      binary heap seeded with the start at depth 0 and cost C::default(),
      with priority pricing each child from its parent and action. */
  method HeapSearch<S(==), A>(p: Problem<S, A>, priority: (S, A) -> int, fuel: nat) returns (r: Outcome<S>)
    ensures r == if fuel == 0 then OutOfFuel else InvertedGuardOutcome(p)
  {
    var start := p.startState;
    var visited := {start};
    var heap := [Entry(start, 0, 0)];
    var steps := 0;
    while heap != []
      invariant steps <= fuel && visited == {start}
      invariant forall i :: 0 <= i < |heap| ==> heap[i].state == start
      invariant steps == 0 ==> |heap| == 1
      invariant steps > 0 ==> !(p.isGoal(start) && p.moves.isValid(start))
      invariant steps > 0 ==> (heap != [] <==> p.moves.isValid(start) && SelfLoop(p.moves, start))
      decreases fuel - steps
    {
      if steps == fuel {
        return OutOfFuel;
      }
      steps := steps + 1;
      var i := MinIndex(heap);
      var node := heap[i];
      heap := Remove(heap, i);
      var state := node.state;
      if p.isGoal(state) && p.moves.isValid(state) {
        return Found(state);
      }
      if p.moves.isValid(state) {
        visited, heap := PushVisitedNodes(p, priority, node, visited, heap);
      }
    }
    return Exhausted;
  }

  method BreadthFirstSearch<S(==), A>(p: Problem<S, A>, fuel: nat) returns (r: Outcome<S>)
    ensures r == if fuel == 0 then OutOfFuel else InvertedGuardOutcome(p)
  {
    r := DequeSearch(p, false, fuel);
  }

  method DepthFirstSearch<S(==), A>(p: Problem<S, A>, fuel: nat) returns (r: Outcome<S>)
    ensures r == if fuel == 0 then OutOfFuel else InvertedGuardOutcome(p)
  {
    r := DequeSearch(p, true, fuel);
  }

  /** Children priced by the edge cost g. */
  method UniformCostSearch<S(==), A>(p: Problem<S, A>, g: (S, A) -> int, fuel: nat) returns (r: Outcome<S>)
    ensures r == if fuel == 0 then OutOfFuel else InvertedGuardOutcome(p)
  {
    r := HeapSearch(p, g, fuel);
  }

  /** Children priced by the heuristic of their parent. */
  method GreedySearch<S(==), A>(p: Problem<S, A>, h: S -> int, fuel: nat) returns (r: Outcome<S>)
    ensures r == if fuel == 0 then OutOfFuel else InvertedGuardOutcome(p)
  {
    r := HeapSearch(p, (s: S, a: A) => h(s), fuel);
  }

  /** Children priced by the edge cost plus the heuristic of their parent. */
  method AStarSearch<S(==), A>(p: Problem<S, A>, g: (S, A) -> int, h: S -> int, fuel: nat) returns (r: Outcome<S>)
    ensures r == if fuel == 0 then OutOfFuel else InvertedGuardOutcome(p)
  {
    r := HeapSearch(p, (s: S, a: A) => g(s, a) + h(s), fuel);
  }

  /** A line 0 -> 1 whose goal is 1: the goal is one legal move from the
      start, yet every search as written ends with None. */
  function LineProblem(): Problem<int, int>
  {
    Problem(Transitions((s: int) => if s == 0 then [1] else [], (s: int, a: int) => a, (s: int) => true),
            0, (s: int) => s == 1)
  }

  lemma InvertedGuardMissesGoal()
    ensures InvertedGuardOutcome(LineProblem()) == Exhausted
    ensures Legal(LineProblem().moves, 0, [1]) && Follow(LineProblem().moves, 0, [1]) == 1
    ensures LineProblem().isGoal(1) && LineProblem().moves.isValid(1)
  {
    var t := LineProblem().moves;
    assert t.actions(0) == [1];
    assert !SelfLoop(t, 0);
    assert [1][1..] == [];
    assert Legal(t, 1, []) && Follow(t, 1, []) == 1;
  }

  /** The states of a sequence. */
  ghost function Members<T>(q: seq<T>): set<T>
  {
    set x | x in q
  }

  lemma PopMembers<T>(q: seq<T>, i: nat)
    requires i < |q|
    ensures Members(q) - {q[i]} <= Members(q[..i] + q[i + 1..])
  {
    forall x | x in Members(q) - {q[i]}
      ensures x in Members(q[..i] + q[i + 1..])
    {
      var j :| 0 <= j < |q| && q[j] == x;
      if j < i {
        assert (q[..i] + q[i + 1..])[j] == x;
      } else {
        assert (q[..i] + q[i + 1..])[j - 1] == x;
      }
    }
  }

  /** The for_each with the guard negated: every successor of state that
      is not yet visited is visited, recorded with its route, and pushed at
      the front. */
  method PushUnvisited<S(==), A>(p: Problem<S, A>, state: S, visited: set<S>, queue: seq<S>, ghost routes: map<S, seq<A>>)
    returns (visited': set<S>, queue': seq<S>, ghost routes': map<S, seq<A>>)
    requires p.moves.isValid(state) && state in visited
    requires routes.Keys == visited && Routed(p.moves, p.startState, routes)
    ensures visited <= visited' && Members(queue) <= Members(queue') <= Members(queue) + visited'
    ensures forall x :: x in visited' && x !in visited ==> x in Members(queue')
    ensures forall a :: a in p.moves.actions(state) ==> p.moves.transfer(state, a) in visited'
    ensures routes'.Keys == visited' && Routed(p.moves, p.startState, routes')
  {
    var actions := p.moves.actions(state);
    visited', queue', routes' := visited, queue, routes;
    for j := 0 to |actions|
      invariant visited <= visited' && Members(queue) <= Members(queue') <= Members(queue) + visited'
      invariant forall x :: x in visited' && x !in visited ==> x in Members(queue')
      invariant forall k :: 0 <= k < j ==> p.moves.transfer(state, actions[k]) in visited'
      invariant routes'.Keys == visited' && Routed(p.moves, p.startState, routes')
      invariant routes'[state] == routes[state]
    {
      var next := p.moves.transfer(state, actions[j]);
      if next !in visited' {
        visited' := visited' + {next};
        FollowSnoc(p.moves, p.startState, routes[state], actions[j]);
        routes' := routes'[next := routes[state] + [actions[j]]];
        assert Members([next] + queue') == Members(queue') + {next};
        queue' := [next] + queue';
      }
    }
    forall a | a in actions
      ensures p.moves.transfer(state, a) in visited'
    {
      var k :| 0 <= k < |actions| && actions[k] == a;
    }
  }

  /** breadth_first_search and depth_first_search with the guard negated:
      a returned state is a valid goal reached by a legal run from the
      start, and None means no legal run from the start reaches a valid
      goal. */
  method CorrectedDequeSearch<S(==), A>(p: Problem<S, A>, popFront: bool, fuel: nat) returns (r: Outcome<S>)
    ensures r.Found? ==> p.isGoal(r.state) && p.moves.isValid(r.state)
    ensures r.Found? ==> exists acts :: Legal(p.moves, p.startState, acts) && Follow(p.moves, p.startState, acts) == r.state
    ensures r.Exhausted? ==> forall acts :: Legal(p.moves, p.startState, acts) ==>
              !(p.isGoal(Follow(p.moves, p.startState, acts)) && p.moves.isValid(Follow(p.moves, p.startState, acts)))
  {
    var start := p.startState;
    var visited := {start};
    var queue := [start];
    ghost var closed: set<S> := {};
    ghost var routes: map<S, seq<A>> := map[start := []];
    assert Legal(p.moves, start, []) && Follow(p.moves, start, []) == start;
    assert Members(queue) == {start};
    var steps := 0;
    while queue != []
      invariant steps <= fuel
      invariant Covered(p.moves, p.isGoal, start, visited, Members(queue), closed)
      invariant routes.Keys == visited && Routed(p.moves, start, routes)
      decreases fuel - steps
    {
      if steps == fuel {
        return OutOfFuel;
      }
      steps := steps + 1;
      ghost var queue0, visited0 := queue, visited;
      var state;
      if popFront {
        state, queue := queue[0], queue[1..];
        PopMembers(queue0, 0);
        assert queue == queue0[..0] + queue0[1..];
      } else {
        state, queue := queue[|queue| - 1], queue[..|queue| - 1];
        PopMembers(queue0, |queue0| - 1);
        assert queue == queue0[..|queue0| - 1] + queue0[|queue0|..];
      }
      assert state in Members(queue0);
      if p.isGoal(state) && p.moves.isValid(state) {
        return Found(state);
      }
      if p.moves.isValid(state) {
        visited, queue, routes := PushUnvisited(p, state, visited, queue, routes);
      }
      SettleKeepsCovered(p.moves, p.isGoal, start, visited0, Members(queue0), closed, state, visited, Members(queue));
      closed := closed + {state};
    }
    forall acts | Legal(p.moves, start, acts)
      ensures !(p.isGoal(Follow(p.moves, start, acts)) && p.moves.isValid(Follow(p.moves, start, acts)))
    {
      CoveredExhausted(p.moves, p.isGoal, start, visited, closed, acts);
    }
    return Exhausted;
  }

  /** The for_each of the cost-ordered searches with the guard negated. */
  method PushUnvisitedNodes<S(==), A>(p: Problem<S, A>, priority: (S, A) -> int, node: Entry<S>, visited: set<S>,
                            heap: seq<Entry<S>>, ghost routes: map<S, seq<A>>)
    returns (visited': set<S>, heap': seq<Entry<S>>, ghost routes': map<S, seq<A>>)
    requires p.moves.isValid(node.state) && node.state in visited
    requires routes.Keys == visited && Routed(p.moves, p.startState, routes)
    ensures visited <= visited' && StatesOf(heap) <= StatesOf(heap') <= StatesOf(heap) + visited'
    ensures forall x :: x in visited' && x !in visited ==> x in StatesOf(heap')
    ensures forall a :: a in p.moves.actions(node.state) ==> p.moves.transfer(node.state, a) in visited'
    ensures routes'.Keys == visited' && Routed(p.moves, p.startState, routes')
    ensures heap <= heap'
    ensures forall i :: |heap| <= i < |heap'| ==> Pushed(p, priority, node, heap'[i])
  {
    var state := node.state;
    var actions := p.moves.actions(state);
    visited', heap', routes' := visited, heap, routes;
    for j := 0 to |actions|
      invariant visited <= visited' && StatesOf(heap) <= StatesOf(heap') <= StatesOf(heap) + visited'
      invariant forall x :: x in visited' && x !in visited ==> x in StatesOf(heap')
      invariant forall k :: 0 <= k < j ==> p.moves.transfer(state, actions[k]) in visited'
      invariant routes'.Keys == visited' && Routed(p.moves, p.startState, routes')
      invariant routes'[state] == routes[state]
      invariant heap <= heap'
      invariant forall i :: |heap| <= i < |heap'| ==> Pushed(p, priority, node, heap'[i])
    {
      var next := p.moves.transfer(state, actions[j]);
      if next !in visited' {
        visited' := visited' + {next};
        FollowSnoc(p.moves, p.startState, routes[state], actions[j]);
        routes' := routes'[next := routes[state] + [actions[j]]];
        assert Pushed(p, priority, node, Entry(next, node.depth + 1, priority(state, actions[j])));
        var child := Entry(next, node.depth + 1, priority(state, actions[j]));
        AppendStates(heap', child);
        heap' := heap' + [child];
      }
    }
    forall a | a in actions
      ensures p.moves.transfer(state, a) in visited'
    {
      var k :| 0 <= k < |actions| && actions[k] == a;
    }
  }

  /** uniform_cost_search, greedy_search and a_star_search with the guard
      negated: the same guarantees as the corrected deque searches. */
  method CorrectedHeapSearch<S(==), A>(p: Problem<S, A>, priority: (S, A) -> int, fuel: nat) returns (r: Outcome<S>)
    ensures r.Found? ==> p.isGoal(r.state) && p.moves.isValid(r.state)
    ensures r.Found? ==> exists acts :: Legal(p.moves, p.startState, acts) && Follow(p.moves, p.startState, acts) == r.state
    ensures r.Exhausted? ==> forall acts :: Legal(p.moves, p.startState, acts) ==>
              !(p.isGoal(Follow(p.moves, p.startState, acts)) && p.moves.isValid(Follow(p.moves, p.startState, acts)))
  {
    var start := p.startState;
    var visited := {start};
    var heap := [Entry(start, 0, 0)];
    ghost var closed: set<S> := {};
    ghost var routes: map<S, seq<A>> := map[start := []];
    assert Legal(p.moves, start, []) && Follow(p.moves, start, []) == start;
    assert heap[0] in heap;
    assert StatesOf(heap) == {start};
    var steps := 0;
    while heap != []
      invariant steps <= fuel
      invariant Covered(p.moves, p.isGoal, start, visited, StatesOf(heap), closed)
      invariant routes.Keys == visited && Routed(p.moves, start, routes)
      decreases fuel - steps
    {
      if steps == fuel {
        return OutOfFuel;
      }
      steps := steps + 1;
      ghost var heap0, visited0 := heap, visited;
      var i := MinIndex(heap);
      var node := heap[i];
      heap := Remove(heap, i);
      PopStates(heap0, i);
      var state := node.state;
      assert node in heap0;
      assert state in StatesOf(heap0);
      if p.isGoal(state) && p.moves.isValid(state) {
        return Found(state);
      }
      if p.moves.isValid(state) {
        visited, heap, routes := PushUnvisitedNodes(p, priority, node, visited, heap, routes);
      }
      SettleKeepsCovered(p.moves, p.isGoal, start, visited0, StatesOf(heap0), closed, state, visited, StatesOf(heap));
      closed := closed + {state};
    }
    forall acts | Legal(p.moves, start, acts)
      ensures !(p.isGoal(Follow(p.moves, start, acts)) && p.moves.isValid(Follow(p.moves, start, acts)))
    {
      CoveredExhausted(p.moves, p.isGoal, start, visited, closed, acts);
    }
    return Exhausted;
  }
}
