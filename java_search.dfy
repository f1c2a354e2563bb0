/** The Java engine: a Problem object whose cost function, heuristic, goal
    test and start state are set through setters, with the moves supplied
    by the states (the State interface).  Each search keeps its visited set
    and frontier in local variables.  Like the Rust engine, every search
    tests visited.contains(nextState) where a state not yet visited is
    meant; the searches are modelled as written, with a step bound since
    they can loop for ever, and with the guard negated. */
module JavaSearch {
  import opened Common

  /** Which of the five searches runs. */
  datatype Kind = BreadthFirst | DepthFirst | UniformCost | Greedy | AStar

  /** Node.compareTo orders by cost alone; PriorityQueue.poll returns a node
      of least cost.  The queue picks some such node; the model fixes the
      earliest of them. */
  function LeastCostIndex<S>(items: seq<Entry<S>>): (i: nat)
    requires items != []
    ensures i < |items|
    ensures forall j :: 0 <= j < |items| ==> items[i].cost <= items[j].cost
    ensures forall j :: 0 <= j < i ==> items[i].cost < items[j].cost
    decreases |items|
  {
    if |items| == 1 then 0
    else
      var k := LeastCostIndex(items[..|items| - 1]);
      if items[|items| - 1].cost < items[k].cost then |items| - 1 else k
  }

  /** Index of the node a search polls next: the head of the ArrayDeque,
      the top of the Stack, the least node of the PriorityQueue. */
  function NextIndex<S>(kind: Kind, items: seq<Entry<S>>): (i: nat)
    requires items != []
    ensures i < |items|
    ensures kind == BreadthFirst ==> i == 0
    ensures kind == DepthFirst ==> i == |items| - 1
    ensures kind !in {BreadthFirst, DepthFirst} ==> forall j :: 0 <= j < |items| ==> items[i].cost <= items[j].cost
  {
    match kind
    case BreadthFirst => 0
    case DepthFirst => |items| - 1
    case _ => LeastCostIndex(items)
  }

  /** Problem<Action, Cost>: the function fields a setter may leave null
      (None), the initial cost and cost addition fixed at construction, and
      the start state.  moves are the State implementation of the states. */
  class Problem<S(==), A> {
    const moves: Transitions<S, A>
    const initialCost: int
    const costAddition: (int, int) -> int
    var costFunction: Option<(S, A) -> int>
    var heuristicFunction: Option<S -> int>
    var isGoal: Option<S -> bool>
    var startState: Option<S>

    constructor (moves: Transitions<S, A>, initialCost: int, costAddition: (int, int) -> int)
      ensures this.moves == moves && this.initialCost == initialCost && this.costAddition == costAddition
      ensures costFunction == None && heuristicFunction == None && isGoal == None && startState == None
    {
      this.moves := moves;
      this.initialCost := initialCost;
      this.costAddition := costAddition;
      costFunction, heuristicFunction, isGoal, startState := None, None, None, None;
    }

    method SetCostFunction(f: (S, A) -> int)
      modifies this`costFunction
      ensures costFunction == Some(f)
    {
      costFunction := Some(f);
    }

    method SetHeuristicFunction(h: S -> int)
      modifies this`heuristicFunction
      ensures heuristicFunction == Some(h)
    {
      heuristicFunction := Some(h);
    }

    method SetStartState(s: S)
      modifies this`startState
      ensures startState == Some(s)
    {
      startState := Some(s);
    }

    method SetGoal(goal: S -> bool)
      modifies this`isGoal
      ensures isGoal == Some(goal)
    {
      isGoal := Some(goal);
    }

    /** The function fields the search of the given kind applies to price a
        child are set. */
    predicate Priced(kind: Kind)
      reads this
    {
      match kind
      case BreadthFirst => true
      case DepthFirst => true
      case UniformCost => costFunction.Some?
      case Greedy => heuristicFunction.Some?
      case AStar => costFunction.Some? && heuristicFunction.Some?
    }

    /** The node a search of the given kind builds for next, reached from
        parent by action: new Node(nextState), at depth 0 and the initial
        cost, for breadth- and depth-first; one level deeper and costed by
        the cost function, the parent's heuristic, or their sum under
        costAddition, for the other three.  None when a function field it
        applies is null. */
    function Child(kind: Kind, parent: Entry<S>, action: A, next: S): (c: Option<Entry<S>>)
      reads this
      ensures c.Some? <==> Priced(kind)
      ensures c.Some? ==> c.value.state == next
    {
      match kind
      case BreadthFirst => Some(Entry(next, 0, initialCost))
      case DepthFirst => Some(Entry(next, 0, initialCost))
      case UniformCost =>
        if costFunction.None? then None
        else Some(Entry(next, parent.depth + 1, costFunction.value(parent.state, action)))
      case Greedy =>
        if heuristicFunction.None? then None
        else Some(Entry(next, parent.depth + 1, heuristicFunction.value(parent.state)))
      case AStar =>
        if costFunction.None? || heuristicFunction.None? then None
        else Some(Entry(next, parent.depth + 1,
                        costAddition(costFunction.value(parent.state, action), heuristicFunction.value(parent.state))))
    }

    /** The depth and cost of the child a search of the given kind builds:
        depth 0 and the initial cost for breadth- and depth-first; one level
        below the parent for the other three, costed by the cost function of
        the edge, the parent's heuristic, or their sum under costAddition. */
    lemma ChildPricing(kind: Kind, parent: Entry<S>, action: A, next: S)
      requires Priced(kind)
      ensures var c := Child(kind, parent, action, next).value;
        && (kind in {BreadthFirst, DepthFirst} ==> c.depth == 0 && c.cost == initialCost)
        && (kind !in {BreadthFirst, DepthFirst} ==> c.depth == parent.depth + 1)
        && (kind == UniformCost ==> c.cost == costFunction.value(parent.state, action))
        && (kind == Greedy ==> c.cost == heuristicFunction.value(parent.state))
        && (kind == AStar ==>
              c.cost == costAddition(costFunction.value(parent.state, action), heuristicFunction.value(parent.state)))
    {
    }

    /** e is a child the forEach over node's actions builds: the node the
        search's kind prices for the state some action leads to. */
    ghost predicate Offered(kind: Kind, node: Entry<S>, e: Entry<S>)
      reads this
    {
      exists a :: a in moves.actions(node.state) && Child(kind, node, a, moves.transfer(node.state, a)) == Some(e)
    }

    /** What every search returns as written, given at least one step: a
        null goal test fails at the first poll; the start when it is a valid
        goal; when the start is valid and has a self-loop, the search pushes
        the start again on every pop, failing at once if the child's pricing
        needs a null field and never ending otherwise; None in every other
        case. */
    ghost function InvertedGuardOutcome(kind: Kind): (r: Outcome<S>)
      reads this
      requires startState.Some?
      ensures r.Found? ==> r.state == startState.value && isGoal.Some? && isGoal.value(r.state) && moves.isValid(r.state)
      ensures r.NullDereference? <==> isGoal.None? || (moves.isValid(startState.value) && SelfLoop(moves, startState.value)
                                                       && !isGoal.value(startState.value) && !Priced(kind))
      ensures r.OutOfFuel? <==> isGoal.Some? && moves.isValid(startState.value) && SelfLoop(moves, startState.value)
                                && !isGoal.value(startState.value) && Priced(kind)
    {
      var start := startState.value;
      if isGoal.None? then NullDereference
      else if isGoal.value(start) && moves.isValid(start) then Found(start)
      else if moves.isValid(start) && SelfLoop(moves, start) then (if Priced(kind) then OutOfFuel else NullDereference)
      else Exhausted
    }

    /** The forEach over the actions of a popped node, as written: when next
        is already visited, add it to visited and offer a child for it.
        visited stays {startState}, and only the start is offered. */
    method OfferVisited(kind: Kind, node: Entry<S>, visited: set<S>, frontier: seq<Entry<S>>)
      returns (failed: bool, visited': set<S>, frontier': seq<Entry<S>>)
      requires startState.Some? && visited == {startState.value} && node.state == startState.value
      requires forall i :: 0 <= i < |frontier| ==> frontier[i].state == node.state
      ensures failed <==> SelfLoop(moves, node.state) && !Priced(kind)
      ensures visited' == {startState.value}
      ensures forall i :: 0 <= i < |frontier'| ==> frontier'[i].state == node.state
      ensures !failed ==> (frontier' != [] <==> frontier != [] || SelfLoop(moves, node.state))
      ensures frontier <= frontier'
      ensures forall i :: |frontier| <= i < |frontier'| ==> Offered(kind, node, frontier'[i])
    {
      var state := node.state;
      var actions := moves.actions(state);
      visited', frontier' := visited, frontier;
      for j := 0 to |actions|
        invariant visited' == {startState.value}
        invariant forall i :: 0 <= i < |frontier'| ==> frontier'[i].state == state
        invariant frontier' != [] <==> frontier != [] || exists k :: 0 <= k < j && moves.transfer(state, actions[k]) == state
        invariant (exists k :: 0 <= k < j && moves.transfer(state, actions[k]) == state) ==> Priced(kind)
        invariant frontier <= frontier'
        invariant forall i :: |frontier| <= i < |frontier'| ==> Offered(kind, node, frontier'[i])
      {
        var next := moves.transfer(state, actions[j]);
        if next in visited' {
          visited' := visited' + {next};
          var child := Child(kind, node, actions[j], next);
          if child.None? {
            assert SelfLoop(moves, state) by {
              assert actions[j] in moves.actions(state);
            }
            return true, visited', frontier';
          }
          assert Offered(kind, node, child.value);
          frontier' := frontier' + [child.value];
        }
      }
      if SelfLoop(moves, state) {
        var a :| a in actions && moves.transfer(state, a) == state;
        var k :| 0 <= k < |actions| && actions[k] == a;
      }
      return false, visited', frontier';
    }

    /** breadthFirstSearch, depthFirstSearch, uniformCostSearch,
        greedySearch and aStarSearch as written, each poll counting one of
        fuel steps.  The source asserts startState != null. */
    method Search(kind: Kind, fuel: nat) returns (r: Outcome<S>)
      requires startState.Some?
      ensures r == if fuel == 0 then OutOfFuel else InvertedGuardOutcome(kind)
    {
      var start := startState.value;
      var visited := {start};
      var frontier := [Entry(start, 0, initialCost)];
      var steps := 0;
      while frontier != []
        invariant steps <= fuel && visited == {start}
        invariant forall i :: 0 <= i < |frontier| ==> frontier[i].state == start
        invariant steps == 0 ==> |frontier| == 1
        invariant steps > 0 ==> isGoal.Some? && !(isGoal.value(start) && moves.isValid(start))
        invariant steps > 0 ==> (frontier != [] <==> moves.isValid(start) && SelfLoop(moves, start))
        invariant steps > 0 && frontier != [] ==> Priced(kind)
        decreases fuel - steps
      {
        if steps == fuel {
          return OutOfFuel;
        }
        steps := steps + 1;
        var i := NextIndex(kind, frontier);
        var node := frontier[i];
        frontier := Remove(frontier, i);
        var state := node.state;
        if isGoal.None? {
          return NullDereference;
        }
        if isGoal.value(state) && moves.isValid(state) {
          return Found(state);
        }
        if moves.isValid(state) {
          var failed;
          failed, visited, frontier := OfferVisited(kind, node, visited, frontier);
          if failed {
            return NullDereference;
          }
        }
      }
      return Exhausted;
    }

    method BreadthFirstSearch(fuel: nat) returns (r: Outcome<S>)
      requires startState.Some?
      ensures r == if fuel == 0 then OutOfFuel else InvertedGuardOutcome(BreadthFirst)
    {
      r := Search(BreadthFirst, fuel);
    }

    method DepthFirstSearch(fuel: nat) returns (r: Outcome<S>)
      requires startState.Some?
      ensures r == if fuel == 0 then OutOfFuel else InvertedGuardOutcome(DepthFirst)
    {
      r := Search(DepthFirst, fuel);
    }

    method UniformCostSearch(fuel: nat) returns (r: Outcome<S>)
      requires startState.Some?
      ensures r == if fuel == 0 then OutOfFuel else InvertedGuardOutcome(UniformCost)
    {
      r := Search(UniformCost, fuel);
    }

    method GreedySearch(fuel: nat) returns (r: Outcome<S>)
      requires startState.Some?
      ensures r == if fuel == 0 then OutOfFuel else InvertedGuardOutcome(Greedy)
    {
      r := Search(Greedy, fuel);
    }

    method AStarSearch(fuel: nat) returns (r: Outcome<S>)
      requires startState.Some?
      ensures r == if fuel == 0 then OutOfFuel else InvertedGuardOutcome(AStar)
    {
      r := Search(AStar, fuel);
    }

    /** The forEach with the guard negated: every successor of the popped
        state that is not yet visited is visited, recorded with its route,
        and offered as a child. */
    method OfferUnvisited(kind: Kind, node: Entry<S>, visited: set<S>, frontier: seq<Entry<S>>,
                          ghost start: S, ghost routes: map<S, seq<A>>)
      returns (failed: bool, visited': set<S>, frontier': seq<Entry<S>>, ghost routes': map<S, seq<A>>)
      requires moves.isValid(node.state) && node.state in visited
      requires routes.Keys == visited && Routed(moves, start, routes)
      ensures failed ==> !Priced(kind)
      ensures !failed ==> visited <= visited' && StatesOf(frontier) <= StatesOf(frontier') <= StatesOf(frontier) + visited'
      ensures !failed ==> forall x :: x in visited' && x !in visited ==> x in StatesOf(frontier')
      ensures !failed ==> forall a :: a in moves.actions(node.state) ==> moves.transfer(node.state, a) in visited'
      ensures !failed ==> routes'.Keys == visited' && Routed(moves, start, routes')
      ensures !failed ==> frontier <= frontier'
      ensures !failed ==> forall i :: |frontier| <= i < |frontier'| ==> Offered(kind, node, frontier'[i])
    {
      var state := node.state;
      var actions := moves.actions(state);
      visited', frontier', routes' := visited, frontier, routes;
      for j := 0 to |actions|
        invariant visited <= visited' && StatesOf(frontier) <= StatesOf(frontier') <= StatesOf(frontier) + visited'
        invariant forall x :: x in visited' && x !in visited ==> x in StatesOf(frontier')
        invariant forall k :: 0 <= k < j ==> moves.transfer(state, actions[k]) in visited'
        invariant routes'.Keys == visited' && Routed(moves, start, routes')
        invariant routes'[state] == routes[state]
        invariant frontier <= frontier'
        invariant forall i :: |frontier| <= i < |frontier'| ==> Offered(kind, node, frontier'[i])
      {
        var next := moves.transfer(state, actions[j]);
        if next !in visited' {
          var child := Child(kind, node, actions[j], next);
          if child.None? {
            return true, visited', frontier', routes';
          }
          visited' := visited' + {next};
          FollowSnoc(moves, start, routes[state], actions[j]);
          routes' := routes'[next := routes[state] + [actions[j]]];
          assert Offered(kind, node, child.value);
          AppendStates(frontier', child.value);
          frontier' := frontier' + [child.value];
        }
      }
      forall a | a in actions
        ensures moves.transfer(state, a) in visited'
      {
        var k :| 0 <= k < |actions| && actions[k] == a;
      }
      return false, visited', frontier', routes';
    }

    /** The five searches with the guard negated: a returned state is a
        valid goal reached by a legal run from the start; an empty result
        means no legal run from the start reaches a valid goal; a null
        dereference happens only when the goal test or a function field the
        kind prices children with is null. */
    method CorrectedSearch(kind: Kind, fuel: nat) returns (r: Outcome<S>)
      requires startState.Some?
      ensures r.Found? ==> isGoal.Some? && isGoal.value(r.state) && moves.isValid(r.state)
      ensures r.Found? ==> exists acts :: Legal(moves, startState.value, acts) && Follow(moves, startState.value, acts) == r.state
      ensures r.Exhausted? ==> isGoal.Some? && forall acts :: Legal(moves, startState.value, acts) ==>
                !(isGoal.value(Follow(moves, startState.value, acts)) && moves.isValid(Follow(moves, startState.value, acts)))
      ensures r.NullDereference? ==> isGoal.None? || !Priced(kind)
    {
      var start := startState.value;
      if isGoal.None? {
        return if fuel == 0 then OutOfFuel else NullDereference;
      }
      var goal := isGoal.value;
      var visited := {start};
      var frontier := [Entry(start, 0, initialCost)];
      ghost var closed: set<S> := {};
      ghost var routes: map<S, seq<A>> := map[start := []];
      assert Legal(moves, start, []) && Follow(moves, start, []) == start;
      assert frontier[0] in frontier;
      assert StatesOf(frontier) == {start};
      var steps := 0;
      while frontier != []
        invariant steps <= fuel
        invariant Covered(moves, goal, start, visited, StatesOf(frontier), closed)
        invariant routes.Keys == visited && Routed(moves, start, routes)
        decreases fuel - steps
      {
        if steps == fuel {
          return OutOfFuel;
        }
        steps := steps + 1;
        ghost var frontier0, visited0 := frontier, visited;
        var i := NextIndex(kind, frontier);
        var node := frontier[i];
        frontier := Remove(frontier, i);
        PopStates(frontier0, i);
        var state := node.state;
        assert node in frontier0;
        assert state in StatesOf(frontier0);
        if goal(state) && moves.isValid(state) {
          return Found(state);
        }
        if moves.isValid(state) {
          var failed;
          failed, visited, frontier, routes := OfferUnvisited(kind, node, visited, frontier, start, routes);
          if failed {
            return NullDereference;
          }
        }
        SettleKeepsCovered(moves, goal, start, visited0, StatesOf(frontier0), closed, state, visited, StatesOf(frontier));
        closed := closed + {state};
      }
      forall acts | Legal(moves, start, acts)
        ensures !(goal(Follow(moves, start, acts)) && moves.isValid(Follow(moves, start, acts)))
      {
        CoveredExhausted(moves, goal, start, visited, closed, acts);
      }
      return Exhausted;
    }
  }

  /** A line 0 -> 1 whose goal is 1, searched breadth-first as written: the
      goal is one legal move from the start, yet the search returns an
      empty result. */
  method InvertedGuardMissesGoal() returns (p: Problem<int, int>, r: Outcome<int>)
    ensures r == Exhausted
    ensures p.isGoal == Some((s: int) => s == 1)
    ensures Legal(p.moves, 0, [1]) && Follow(p.moves, 0, [1]) == 1 && p.moves.isValid(1)
  {
    var moves := Transitions((s: int) => if s == 0 then [1] else [], (s: int, a: int) => a, (s: int) => true);
    p := new Problem(moves, 0, (x: int, y: int) => x + y);
    p.SetStartState(0);
    p.SetGoal((s: int) => s == 1);
    assert moves.actions(0) == [1];
    assert !SelfLoop(moves, 0);
    r := p.BreadthFirstSearch(1);
    assert [1][1..] == [];
    assert Legal(moves, 1, []) && Follow(moves, 1, []) == 1;
  }
}
