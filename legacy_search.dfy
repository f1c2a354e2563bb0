/** The earlier C++ engine: the same search written out as five loops, one
    per strategy, over three frontier fields of the Problem (a stack, a queue
    and a priority queue).  It differs from the canonical engine in three
    ways: the goal test comes before the validity test, breadth- and
    depth-first nodes never get a depth, and Node::operator< compares costs
    ascending, so the priority queue hands out a most costly node first. */
module LegacySearch {
  import opened Common

  /** Problem::Node: the state, the state it was discovered from, its
      priority (cost) and its depth. */
  datatype Node<S> = Node(parent: S, state: S, cost: int, depth: nat)

  /** Which of the five loops runs. */
  datatype Strategy = BreadthFirst | DepthFirst | UniformCost | Greedy | AStar

  /** Node::operator<, which reads "a is below b": a costs less than b. */
  predicate Below<S>(a: Node<S>, b: Node<S>)
  {
    a.cost < b.cost
  }

  /** What std::priority_queue<Node>::top may return: a node of items that
      no node of items is above under operator<. */
  ghost predicate IsTop<S>(items: seq<Node<S>>, n: Node<S>)
  {
    n in items && forall m :: m in items ==> !Below(n, m)
  }

  /** The most costly node that was pushed first.  The heap picks some node
      of greatest cost; the model fixes the earliest of them. */
  function MaxCostIndex<S>(items: seq<Node<S>>): (i: nat)
    requires items != []
    ensures i < |items|
    ensures IsTop(items, items[i])
    ensures forall j :: 0 <= j < |items| ==> items[j].cost <= items[i].cost
    ensures forall j :: 0 <= j < i ==> items[j].cost < items[i].cost
    decreases |items|
  {
    if |items| == 1 then 0
    else
      var k := MaxCostIndex(items[..|items| - 1]);
      if items[|items| - 1].cost > items[k].cost then |items| - 1 else k
  }

  /** Popping from a priority queue whose costs are [1, 5] hands out the node
      of cost 5 first: the uniform-cost, greedy and A* loops expand the most
      costly frontier node. */
  lemma MostCostlyFirst<S>(s: S, t: S)
    ensures var items := [Node(s, s, 1, 0), Node(s, t, 5, 1)];
      MaxCostIndex(items) == 1 && items[MaxCostIndex(items)].cost == 5
  {
    var items := [Node(s, s, 1, 0), Node(s, t, 5, 1)];
    assert items[..1] == [Node(s, s, 1, 0)];
  }

  /** Index of the node a loop of the given strategy takes next: the front of
      the queue, the top of the stack, the top of the priority queue. */
  function NextIndex<S>(strategy: Strategy, items: seq<Node<S>>): (i: nat)
    requires items != []
    ensures i < |items|
    ensures strategy == BreadthFirst ==> i == 0
    ensures strategy == DepthFirst ==> i == |items| - 1
    ensures strategy !in {BreadthFirst, DepthFirst} ==> IsTop(items, items[i])
  {
    match strategy
    case BreadthFirst => 0
    case DepthFirst => |items| - 1
    case _ => MaxCostIndex(items)
  }

  /** Breadth- and depth-first build their nodes with makeNode, which
      leaves cost and depth 0. */
  predicate Uninformed(strategy: Strategy)
  {
    strategy == BreadthFirst || strategy == DepthFirst
  }

  /** The cost a loop of the given strategy gives the node for childState,
      reached by action from parent: none for breadth- and depth-first; the
      edge cost, the child's heuristic, or their sum, for the other three. */
  function Cost<S, A>(strategy: Strategy, p: Plugin<S, A>, parent: S, action: A, childState: S): int
  {
    match strategy
    case BreadthFirst => 0
    case DepthFirst => 0
    case UniformCost => p.g(parent, action)
    case Greedy => p.h(childState)
    case AStar => p.h(childState) + p.g(parent, action)
  }

  /** The node a loop of the given strategy builds for childState when
      action is taken from node: makeNode for breadth- and depth-first, a
      costed node one level deeper for the other three. */
  function ChildNode<S, A>(strategy: Strategy, p: Plugin<S, A>, node: Node<S>, action: A, childState: S): Node<S>
  {
    Node(node.state, childState, Cost(strategy, p, node.state, action, childState),
         if Uninformed(strategy) then 0 else node.depth + 1)
  }

  /** nodeMap, and the nodes pushed, after the loop over actions that
      expands node has run over acts starting from nodeMap m. */
  function Expand<S(==), A>(strategy: Strategy, p: Plugin<S, A>, node: Node<S>, acts: seq<A>,
                            m: map<S, Node<S>>): (map<S, Node<S>>, seq<Node<S>>)
    decreases |acts|
  {
    if acts == [] then (m, [])
    else
      var (m1, pushed) := Expand(strategy, p, node, acts[..|acts| - 1], m);
      var action := acts[|acts| - 1];
      var child := p.moves.transfer(node.state, action);
      if child in m1 then (m1, pushed)
      else
        var childNode := ChildNode(strategy, p, node, action, child);
        (m1[child := childNode], pushed + [childNode])
  }

  /** The number of parent links from each key back to the start: the
      depth a node would have if every loop counted it. */
  ghost function Deepen<S>(m: map<S, Node<S>>, rank: map<S, nat>, parent: S): map<S, nat>
    requires parent in rank
  {
    map k | k in m :: if k in rank then rank[k] else rank[parent] + 1
  }

  /** Node n was entered when its parent was expanded: the parent is not a
      goal, is valid, and offers an action leading to n's state, and n
      carries the cost the strategy gives that edge. */
  ghost predicate Expanded<S, A>(strategy: Strategy, p: Plugin<S, A>, n: Node<S>)
  {
    && !p.isGoal(n.parent)
    && p.moves.isValid(n.parent)
    && exists a :: a in p.moves.actions(n.parent) && p.moves.transfer(n.parent, a) == n.state
                   && n.cost == Cost(strategy, p, n.parent, a, n.state)
  }

  /** The parent-chain invariant of nodeMap, ranked by the number of links
      back to the start: the start maps to its own node of cost and depth 0,
      every entry is keyed by its state, and every other entry's parent is a
      key one link closer to the start. */
  ghost predicate ParentChain<S>(m: map<S, Node<S>>, rank: map<S, nat>, start: S)
  {
    && start in m && m[start] == Node(start, start, 0, 0)
    && rank.Keys == m.Keys && rank[start] == 0
    && (forall k :: k in m ==> m[k].state == k)
    && (forall k {:trigger m[k]} :: k in m && k != start ==> m[k].parent in m && rank[m[k].parent] + 1 == rank[k])
  }

  /** The depth recorded in each node: always 0 for breadth- and
      depth-first, the number of links back to the start otherwise. */
  ghost predicate Depths<S>(strategy: Strategy, m: map<S, Node<S>>, rank: map<S, nat>)
    requires rank.Keys == m.Keys
  {
    forall k :: k in m ==> m[k].depth == if Uninformed(strategy) then 0 else rank[k]
  }

  /** After k was popped: k is not a goal, and if k is valid all its
      successors are keys of m. */
  ghost predicate Done<S, A>(p: Plugin<S, A>, m: map<S, Node<S>>, k: S)
  {
    && !p.isGoal(k)
    && (p.moves.isValid(k) ==> forall a :: a in p.moves.actions(k) ==> p.moves.transfer(k, a) in m)
  }

  /** Some node of frontier has state k. */
  ghost predicate Queued<S>(frontier: seq<Node<S>>, k: S)
  {
    exists j :: 0 <= j < |frontier| && frontier[j].state == k
  }

  /** No two nodes of frontier share a state. */
  ghost predicate Distinct<S>(frontier: seq<Node<S>>)
  {
    forall i, j :: 0 <= i < j < |frontier| ==> frontier[i].state != frontier[j].state
  }
  /** Every entry other than the start's was entered by an expansion, along
      a ranked parent chain, with the depth the strategy records. */
  ghost predicate Discovered<S, A>(strategy: Strategy, p: Plugin<S, A>, start: S, m: map<S, Node<S>>,
                                   rank: map<S, nat>)
  {
    && ParentChain(m, rank, start)
    && Depths(strategy, m, rank)
    && (forall k :: k in m && k != start ==> Expanded(strategy, p, m[k]))
  }

  /** Each frontier node is the entry of its state, not yet popped, and no
      two frontier nodes share a state. */
  ghost predicate Pending<S>(m: map<S, Node<S>>, frontier: seq<Node<S>>, closed: set<S>)
  {
    && (forall j :: 0 <= j < |frontier| ==> frontier[j].state in m && m[frontier[j].state] == frontier[j])
    && (forall j :: 0 <= j < |frontier| ==> frontier[j].state !in closed)
    && Distinct(frontier)
  }

  /** Every key has been popped or is waiting on the frontier, and every
      popped state is a key. */
  ghost predicate Covers<S>(m: map<S, Node<S>>, frontier: seq<Node<S>>, closed: set<S>)
  {
    && (forall k :: k in m ==> k in closed || Queued(frontier, k))
    && closed <= m.Keys
  }

  /** Every popped state is done. */
  ghost predicate AllDone<S, A>(p: Plugin<S, A>, m: map<S, Node<S>>, closed: set<S>)
  {
    forall k :: k in closed ==> Done(p, m, k)
  }

  /** The invariant of the five loops, with closed the states popped so far. */
  ghost predicate Explored<S, A>(strategy: Strategy, p: Plugin<S, A>, start: S, m: map<S, Node<S>>,
                                 rank: map<S, nat>, frontier: seq<Node<S>>, closed: set<S>)
  {
    && Discovered(strategy, p, start, m, rank)
    && Pending(m, frontier, closed)
    && Covers(m, frontier, closed)
    && AllDone(p, m, closed)
  }

  /** Expanding node never replaces an entry (first discovery wins), enters
      every successor, and every state it enters is a child of node built
      by the strategy. */
  lemma {:induction false} ExpandKeeps<S, A>(strategy: Strategy, p: Plugin<S, A>, node: Node<S>, acts: seq<A>,
                                             m: map<S, Node<S>>)
    ensures var m' := Expand(strategy, p, node, acts, m).0;
      && (forall k :: k in m ==> k in m' && m'[k] == m[k])
      && (forall a :: a in acts ==> p.moves.transfer(node.state, a) in m')
      && (forall k :: k in m' && k !in m ==>
            exists a :: a in acts && p.moves.transfer(node.state, a) == k && m'[k] == ChildNode(strategy, p, node, a, k))
    decreases |acts|
  {
    if acts != [] {
      var init := acts[..|acts| - 1];
      ExpandKeeps(strategy, p, node, init, m);
      var m1 := Expand(strategy, p, node, init, m).0;
      var action := acts[|acts| - 1];
      var child := p.moves.transfer(node.state, action);
      var m' := Expand(strategy, p, node, acts, m).0;
      forall a | a in acts
        ensures p.moves.transfer(node.state, a) in m'
      {
        if a != action {
          assert a in init;
        }
      }
      forall k | k in m' && k !in m
        ensures exists a :: a in acts && p.moves.transfer(node.state, a) == k && m'[k] == ChildNode(strategy, p, node, a, k)
      {
        if k !in m1 {
          assert k == child && m'[k] == ChildNode(strategy, p, node, action, child);
          assert action in acts;
        } else {
          var a :| a in init && p.moves.transfer(node.state, a) == k && m1[k] == ChildNode(strategy, p, node, a, k);
          assert a in acts;
        }
      }
    }
  }

  /** The nodes pushed while expanding node are exactly the entries of the
      states newly entered, each pushed once. */
  lemma {:induction false} ExpandPushed<S, A>(strategy: Strategy, p: Plugin<S, A>, node: Node<S>, acts: seq<A>,
                                              m: map<S, Node<S>>)
    ensures var (m', pushed) := Expand(strategy, p, node, acts, m);
      && (forall j :: 0 <= j < |pushed| ==> pushed[j].state in m' && pushed[j].state !in m && m'[pushed[j].state] == pushed[j])
      && (forall k :: k in m' && k !in m ==> Queued(pushed, k))
      && Distinct(pushed)
    decreases |acts|
  {
    if acts != [] {
      var init := acts[..|acts| - 1];
      ExpandPushed(strategy, p, node, init, m);
      ExpandKeeps(strategy, p, node, init, m);
      var (m1, pushed1) := Expand(strategy, p, node, init, m);
      var action := acts[|acts| - 1];
      var child := p.moves.transfer(node.state, action);
      if child !in m1 {
        var childNode := ChildNode(strategy, p, node, action, child);
        var (m', pushed) := Expand(strategy, p, node, acts, m);
        assert m' == m1[child := childNode] && pushed == pushed1 + [childNode];
        forall j | 0 <= j < |pushed|
          ensures pushed[j].state in m' && pushed[j].state !in m && m'[pushed[j].state] == pushed[j]
        {
          if j < |pushed1| {
            assert pushed[j] == pushed1[j];
          }
        }
        forall k | k in m' && k !in m
          ensures Queued(pushed, k)
        {
          if k == child {
            assert pushed[|pushed| - 1].state == k;
          } else {
            var j :| 0 <= j < |pushed1| && pushed1[j].state == k;
            assert pushed[j].state == k;
          }
        }
      }
    }
  }

  /** The state right after seeding meets the invariant. */
  lemma SeedExplored<S, A>(strategy: Strategy, p: Plugin<S, A>, start: S)
    ensures var node := Node(start, start, 0, 0);
      Explored(strategy, p, start, map[start := node], map[start := 0], [node], {})
  {
    assert [Node(start, start, 0, 0)][0].state == start;
  }

  /** Removing frontier[i] and appending nodes for states new to the map
      keeps the frontier pending once frontier[i]'s state is popped. */
  lemma PendingAfterPop<S>(m: map<S, Node<S>>, frontier: seq<Node<S>>, closed: set<S>, i: nat,
                           m': map<S, Node<S>>, pushed: seq<Node<S>>)
    requires Pending(m, frontier, closed) && closed <= m.Keys && i < |frontier|
    requires forall k :: k in m ==> k in m' && m'[k] == m[k]
    requires forall j :: 0 <= j < |pushed| ==> pushed[j].state in m' && pushed[j].state !in m && m'[pushed[j].state] == pushed[j]
    requires Distinct(pushed)
    ensures Pending(m', Remove(frontier, i) + pushed, closed + {frontier[i].state})
  {
    var st := frontier[i].state;
    var rest := Remove(frontier, i);
    var frontier' := rest + pushed;
    forall j | 0 <= j < |frontier'|
      ensures frontier'[j].state in m' && m'[frontier'[j].state] == frontier'[j]
      ensures frontier'[j].state !in closed + {st}
    {
      if j >= |rest| {
        assert frontier'[j] == pushed[j - |rest|];
      } else if j < i {
        assert frontier'[j] == frontier[j];
      } else {
        assert frontier'[j] == frontier[j + 1];
      }
    }
    forall j1, j2 | 0 <= j1 < j2 < |frontier'|
      ensures frontier'[j1].state != frontier'[j2].state
    {
      var o1 := if j1 < i then j1 else j1 + 1;
      if j2 < |rest| {
        var o2 := if j2 < i then j2 else j2 + 1;
        assert frontier'[j1] == frontier[o1] && frontier'[j2] == frontier[o2];
      } else if j1 >= |rest| {
        assert frontier'[j1] == pushed[j1 - |rest|] && frontier'[j2] == pushed[j2 - |rest|];
      } else {
        assert frontier'[j2] == pushed[j2 - |rest|];
        assert frontier'[j1] == frontier[o1];
      }
    }
  }

  /** Removing frontier[i] and appending a node for every state new to the
      map keeps every key popped or queued once frontier[i]'s state is
      popped. */
  lemma CoversAfterPop<S>(m: map<S, Node<S>>, frontier: seq<Node<S>>, closed: set<S>, i: nat,
                          m': map<S, Node<S>>, pushed: seq<Node<S>>)
    requires Covers(m, frontier, closed) && i < |frontier| && frontier[i].state in m
    requires m.Keys <= m'.Keys
    requires forall k :: k in m' && k !in m ==> Queued(pushed, k)
    ensures Covers(m', Remove(frontier, i) + pushed, closed + {frontier[i].state})
  {
    var rest := Remove(frontier, i);
    var frontier' := rest + pushed;
    var closed' := closed + {frontier[i].state};
    forall k | k in m'
      ensures k in closed' || Queued(frontier', k)
    {
      if k !in m {
        var j :| 0 <= j < |pushed| && pushed[j].state == k;
        assert frontier'[|rest| + j].state == k;
      } else if k !in closed' {
        var j :| 0 <= j < |frontier| && frontier[j].state == k;
        if j < i {
          assert frontier'[j].state == k;
        } else {
          assert frontier'[j - 1].state == k;
        }
      }
    }
  }

  /** Popping a non-goal invalid state and skipping it keeps the invariant. */
  lemma PopInvalidExplored<S, A>(strategy: Strategy, p: Plugin<S, A>, start: S, m: map<S, Node<S>>,
                                 rank: map<S, nat>, frontier: seq<Node<S>>, closed: set<S>, i: nat)
    requires Explored(strategy, p, start, m, rank, frontier, closed)
    requires i < |frontier| && !p.isGoal(frontier[i].state) && !p.moves.isValid(frontier[i].state)
    ensures Explored(strategy, p, start, m, rank, Remove(frontier, i), closed + {frontier[i].state})
  {
    var empty: seq<Node<S>> := [];
    PendingAfterPop(m, frontier, closed, i, m, empty);
    CoversAfterPop(m, frontier, closed, i, m, empty);
    assert Remove(frontier, i) + empty == Remove(frontier, i);
    assert Done(p, m, frontier[i].state);
  }

  /** Expanding node keeps the ranked parent chain, and every new entry is a
      child of node built by the strategy. */
  lemma ExpandChain<S, A>(strategy: Strategy, p: Plugin<S, A>, start: S, m: map<S, Node<S>>, rank: map<S, nat>,
                          node: Node<S>)
    requires Discovered(strategy, p, start, m, rank)
    requires node.state in m && m[node.state] == node
    requires !p.isGoal(node.state) && p.moves.isValid(node.state)
    ensures var m' := Expand(strategy, p, node, p.moves.actions(node.state), m).0;
      Discovered(strategy, p, start, m', Deepen(m', rank, node.state))
  {
    var acts := p.moves.actions(node.state);
    ExpandKeeps(strategy, p, node, acts, m);
    var m' := Expand(strategy, p, node, acts, m).0;
    var rank' := Deepen(m', rank, node.state);
    forall k | k in m'
      ensures m'[k].depth == if Uninformed(strategy) then 0 else rank'[k]
    {
      if k !in m {
        var a :| a in acts && p.moves.transfer(node.state, a) == k && m'[k] == ChildNode(strategy, p, node, a, k);
      }
    }
    forall k | k in m' && k != start
      ensures m'[k].parent in m' && rank'[m'[k].parent] + 1 == rank'[k]
      ensures Expanded(strategy, p, m'[k])
    {
      if k !in m {
        var a :| a in acts && p.moves.transfer(node.state, a) == k && m'[k] == ChildNode(strategy, p, node, a, k);
      } else {
        assert Expanded(strategy, p, m[k]);
      }
    }
  }

  /** Popping a valid non-goal node and expanding it keeps the invariant. */
  lemma ExpandExplored<S, A>(strategy: Strategy, p: Plugin<S, A>, start: S, m: map<S, Node<S>>,
                             rank: map<S, nat>, frontier: seq<Node<S>>, closed: set<S>, i: nat)
    requires Explored(strategy, p, start, m, rank, frontier, closed)
    requires i < |frontier|
    requires !p.isGoal(frontier[i].state) && p.moves.isValid(frontier[i].state)
    ensures var (m', pushed) := Expand(strategy, p, frontier[i], p.moves.actions(frontier[i].state), m);
      Explored(strategy, p, start, m', Deepen(m', rank, frontier[i].state), Remove(frontier, i) + pushed,
               closed + {frontier[i].state})
  {
    var st := frontier[i].state;
    var acts := p.moves.actions(st);
    ExpandChain(strategy, p, start, m, rank, frontier[i]);
    ExpandKeeps(strategy, p, frontier[i], acts, m);
    ExpandPushed(strategy, p, frontier[i], acts, m);
    var (m', pushed) := Expand(strategy, p, frontier[i], acts, m);
    PendingAfterPop(m, frontier, closed, i, m', pushed);
    CoversAfterPop(m, frontier, closed, i, m', pushed);
    forall k | k in closed + {st}
      ensures Done(p, m', k)
    {
      if k != st {
        assert Done(p, m, k);
      }
    }
  }

  /** Expanding a valid state of a closed universe stays inside it, and
      either enters a state new to nodeMap or pushes nothing. */
  lemma ExpandProgress<S, A>(strategy: Strategy, p: Plugin<S, A>, node: Node<S>, m: map<S, Node<S>>,
                             universe: set<S>)
    requires Closed(p.moves, universe) && m.Keys <= universe
    requires node.state in universe && p.moves.isValid(node.state)
    ensures var (m', pushed) := Expand(strategy, p, node, p.moves.actions(node.state), m);
      && m'.Keys <= universe
      && (universe - m'.Keys < universe - m.Keys || (m'.Keys == m.Keys && pushed == []))
  {
    var acts := p.moves.actions(node.state);
    ExpandKeeps(strategy, p, node, acts, m);
    ExpandPushed(strategy, p, node, acts, m);
    var (m', pushed) := Expand(strategy, p, node, acts, m);
    forall k | k in m' && k !in m
      ensures k in universe
    {
      var a :| a in acts && p.moves.transfer(node.state, a) == k && m'[k] == ChildNode(strategy, p, node, a, k);
    }
    if pushed != [] {
      assert pushed[0].state in universe - m.Keys;
    }
  }

  /** When the frontier is empty, the explored states are closed under the
      moves of their valid members and none of them is a goal. */
  lemma ExhaustedExplored<S, A>(strategy: Strategy, p: Plugin<S, A>, start: S, m: map<S, Node<S>>,
                                rank: map<S, nat>, closed: set<S>)
    requires Explored(strategy, p, start, m, rank, [], closed)
    ensures Closed(p.moves, m.Keys)
    ensures forall k :: k in m ==> !p.isGoal(k)
  {
    forall k | k in m
      ensures Done(p, m, k)
    {
      assert k in closed;
    }
  }

  /** An exhausted search leaves no goal that a legal run from the start
      can reach. */
  lemma {:induction false} ExhaustedUnreachable<S, A>(p: Plugin<S, A>, m: map<S, Node<S>>, start: S, acts: seq<A>)
    requires Closed(p.moves, m.Keys) && start in m
    requires forall k :: k in m ==> !p.isGoal(k)
    requires Legal(p.moves, start, acts)
    ensures Follow(p.moves, start, acts) in m
    ensures !p.isGoal(Follow(p.moves, start, acts))
  {
    ClosedHoldsRuns(p.moves, m.Keys, start, acts);
  }

  /** Every key of nodeMap is reached from the start by a legal run of as
      many actions as its rank: following parents back from a key retraces
      the moves that discovered it. */
  lemma {:induction false} KeysReachable<S, A>(strategy: Strategy, p: Plugin<S, A>, m: map<S, Node<S>>,
                                               rank: map<S, nat>, start: S, k: S)
    requires ParentChain(m, rank, start)
    requires forall k :: k in m && k != start ==> Expanded(strategy, p, m[k])
    requires k in m
    ensures exists acts :: Legal(p.moves, start, acts) && Follow(p.moves, start, acts) == k && |acts| == rank[k]
    decreases rank[k]
  {
    if k == start {
      assert Legal(p.moves, start, []) && Follow(p.moves, start, []) == start;
    } else {
      var parent := m[k].parent;
      KeysReachable(strategy, p, m, rank, start, parent);
      var acts :| Legal(p.moves, start, acts) && Follow(p.moves, start, acts) == parent && |acts| == rank[parent];
      assert Expanded(strategy, p, m[k]);
      var a :| a in p.moves.actions(parent) && p.moves.transfer(parent, a) == k
               && m[k].cost == Cost(strategy, p, parent, a, k);
      FollowSnoc(p.moves, start, acts, a);
      assert Legal(p.moves, start, acts + [a]) && Follow(p.moves, start, acts + [a]) == k;
    }
  }

  /** Problem<State, Action, Cost>: the plug-in, the start state, the goal
      found by the last search, the three frontiers and the map of
      discovered states.  rank is the model's record of how many parent
      links lead from each key back to the start. */
  class Problem<S(==), A> {
    const plugin: Plugin<S, A>
    var startState: S
    var goalState: Option<S>
    var stack: seq<Node<S>>
    var queue: seq<Node<S>>
    var priorityQueue: seq<Node<S>>
    var nodeMap: map<S, Node<S>>
    ghost var rank: map<S, nat>

    constructor (plugin: Plugin<S, A>, startState: S)
      ensures this.plugin == plugin && this.startState == startState && goalState == None
      ensures stack == [] && queue == [] && priorityQueue == [] && nodeMap == map[] && rank == map[]
    {
      this.plugin := plugin;
      this.startState := startState;
      goalState := None;
      stack, queue, priorityQueue := [], [], [];
      nodeMap := map[];
      rank := map[];
    }

    method SetStartState(state: S)
      modifies this`startState
      ensures startState == state
    {
      startState := state;
    }

    method Clear()
      modifies this`goalState, this`stack, this`queue, this`priorityQueue, this`nodeMap, this`rank
      ensures goalState == None && stack == [] && queue == [] && priorityQueue == []
      ensures nodeMap == map[] && rank == map[]
    {
      goalState := None;
      stack, queue, priorityQueue := [], [], [];
      nodeMap := map[];
      rank := map[];
    }

    /** The frontier field the loop of the given strategy works on. */
    function Frontier(strategy: Strategy): seq<Node<S>>
      reads this`stack, this`queue, this`priorityQueue
    {
      match strategy
      case BreadthFirst => queue
      case DepthFirst => stack
      case UniformCost | Greedy | AStar => priorityQueue
    }

    /** The two frontier fields the loop of the given strategy leaves alone:
        stack and priorityQueue for breadth-first, queue and priorityQueue
        for depth-first, stack and queue for the other three. */
    function Unused(strategy: Strategy): (seq<Node<S>>, seq<Node<S>>)
      reads this`stack, this`queue, this`priorityQueue
    {
      match strategy
      case BreadthFirst => (stack, priorityQueue)
      case DepthFirst => (queue, priorityQueue)
      case UniformCost | Greedy | AStar => (stack, queue)
    }

    /** queue.push, stack.push or priorityQueue.push. */
    method Push(strategy: Strategy, node: Node<S>)
      modifies this`stack, this`queue, this`priorityQueue
      ensures Frontier(strategy) == old(Frontier(strategy)) + [node]
      ensures Unused(strategy) == old(Unused(strategy))
    {
      match strategy
      case BreadthFirst => queue := queue + [node];
      case DepthFirst => stack := stack + [node];
      case _ => priorityQueue := priorityQueue + [node];
    }

    /** queue.front, stack.top or priorityQueue.top, followed by pop. */
    method Pop(strategy: Strategy) returns (node: Node<S>)
      requires Frontier(strategy) != []
      modifies this`stack, this`queue, this`priorityQueue
      ensures node == old(Frontier(strategy)[NextIndex(strategy, Frontier(strategy))])
      ensures Frontier(strategy) == old(Remove(Frontier(strategy), NextIndex(strategy, Frontier(strategy))))
      ensures Unused(strategy) == old(Unused(strategy))
    {
      var i := NextIndex(strategy, Frontier(strategy));
      node := Frontier(strategy)[i];
      match strategy
      case BreadthFirst => queue := Remove(queue, i);
      case DepthFirst => stack := Remove(stack, i);
      case _ => priorityQueue := Remove(priorityQueue, i);
    }

    /** What a search of the given strategy leaves behind and returns. */
    ghost predicate Reported(strategy: Strategy, r: Option<S>)
      reads this
    {
      && Discovered(strategy, plugin, startState, nodeMap, rank)
      && goalState == r
      && (r.Some? ==> r.value in nodeMap && plugin.isGoal(r.value))
      && (r.None? ==> Closed(plugin.moves, nodeMap.Keys) && forall k :: k in nodeMap ==> !plugin.isGoal(k))
    }

    /** The loop shared by the five searches.  universe is a finite set of
        states, closed under the moves of valid states, that holds the
        start: it bounds nodeMap and makes the loop terminate. */
    method Search(strategy: Strategy, ghost universe: set<S>) returns (r: Option<S>)
      requires startState in universe && Closed(plugin.moves, universe)
      modifies this`goalState, this`stack, this`queue, this`priorityQueue, this`nodeMap, this`rank
      ensures nodeMap.Keys <= universe
      ensures Reported(strategy, r)
      ensures Unused(strategy) == ([], [])
    {
      Seed(strategy);
      ghost var closed: set<S> := {};
      while true
        invariant Explored(strategy, plugin, startState, nodeMap, rank, Frontier(strategy), closed)
        invariant nodeMap.Keys <= universe
        invariant goalState == None
        invariant Unused(strategy) == ([], [])
        decreases universe - nodeMap.Keys, |Frontier(strategy)|
      {
        if Frontier(strategy) == [] {
          ExhaustedExplored(strategy, plugin, startState, nodeMap, rank, closed);
          return None;
        }
        r, closed := Step(strategy, closed, universe);
        if r.Some? {
          return;
        }
      }
    }

    /** One turn of the loop: pop the next node, stop with its state if it
        is a goal, otherwise skip or expand it. */
    method Step(strategy: Strategy, ghost closed: set<S>, ghost universe: set<S>)
      returns (found: Option<S>, ghost closed': set<S>)
      requires Explored(strategy, plugin, startState, nodeMap, rank, Frontier(strategy), closed)
      requires Frontier(strategy) != [] && goalState == None
      requires Closed(plugin.moves, universe) && nodeMap.Keys <= universe
      modifies this`goalState, this`stack, this`queue, this`priorityQueue, this`nodeMap, this`rank
      ensures nodeMap.Keys <= universe && goalState == found
      ensures Unused(strategy) == old(Unused(strategy))
      ensures found.Some? ==> && Discovered(strategy, plugin, startState, nodeMap, rank)
                              && found.value in nodeMap && plugin.isGoal(found.value)
      ensures found.None? ==> Explored(strategy, plugin, startState, nodeMap, rank, Frontier(strategy), closed')
      ensures found.None? ==> || universe - nodeMap.Keys < old(universe - nodeMap.Keys)
                              || (nodeMap.Keys == old(nodeMap.Keys) && |Frontier(strategy)| < old(|Frontier(strategy)|))
    {
      ghost var frontier := Frontier(strategy);
      ghost var i := NextIndex(strategy, frontier);
      var node := Pop(strategy);
      var state := node.state;
      if plugin.isGoal(state) {
        goalState := Some(state);
        return goalState, closed;
      }
      Visit(strategy, node, frontier, closed, i, universe);
      found, closed' := None, closed + {state};
    }

    /** The start of each of the five loops: clear, enter the start state
        as its own parent with cost and depth 0, and push it. */
    method Seed(strategy: Strategy)
      modifies this`goalState, this`stack, this`queue, this`priorityQueue, this`nodeMap, this`rank
      ensures goalState == None && nodeMap.Keys == {startState}
      ensures Unused(strategy) == ([], [])
      ensures Explored(strategy, plugin, startState, nodeMap, rank, Frontier(strategy), {})
    {
      Clear();
      var state := startState;
      var node := Node(state, state, 0, 0);
      nodeMap := nodeMap[state := node];
      rank := rank[state := 0];
      Push(strategy, node);
      SeedExplored(strategy, plugin, startState);
      assert nodeMap == map[startState := node] && rank == map[startState := 0] && Frontier(strategy) == [node];
    }

    /** What the loop does with a popped non-goal node: skip it if it is
        invalid, expand it otherwise, recording the ranks of the states it
        enters.  Keeps the loop's invariant, and enters a new state or
        shrinks the frontier. */
    method Visit(strategy: Strategy, node: Node<S>, ghost frontier: seq<Node<S>>, ghost closed: set<S>,
                 ghost i: nat, ghost universe: set<S>)
      requires Explored(strategy, plugin, startState, nodeMap, rank, frontier, closed)
      requires i < |frontier| && node == frontier[i] && Frontier(strategy) == Remove(frontier, i)
      requires !plugin.isGoal(node.state)
      requires Closed(plugin.moves, universe) && nodeMap.Keys <= universe && node.state in universe
      modifies this`nodeMap, this`stack, this`queue, this`priorityQueue, this`rank
      ensures Explored(strategy, plugin, startState, nodeMap, rank, Frontier(strategy), closed + {node.state})
      ensures nodeMap.Keys <= universe
      ensures Unused(strategy) == old(Unused(strategy))
      ensures universe - nodeMap.Keys < universe - old(nodeMap.Keys)
           || (nodeMap.Keys == old(nodeMap.Keys) && |Frontier(strategy)| < |frontier|)
    {
      if !plugin.moves.isValid(node.state) {
        PopInvalidExplored(strategy, plugin, startState, nodeMap, rank, frontier, closed, i);
        return;
      }
      ghost var m0 := nodeMap;
      ExpandNode(strategy, node);
      ExpandExplored(strategy, plugin, startState, m0, rank, frontier, closed, i);
      ExpandProgress(strategy, plugin, node, m0, universe);
      rank := Deepen(nodeMap, rank, node.state);
    }

    /** The loop over the actions of a popped valid non-goal node: each
        successor that is not yet a key is entered into nodeMap with the
        node the strategy builds for it, which is pushed. */
    method ExpandNode(strategy: Strategy, node: Node<S>)
      modifies this`nodeMap, this`stack, this`queue, this`priorityQueue
      ensures nodeMap == Expand(strategy, plugin, node, plugin.moves.actions(node.state), old(nodeMap)).0
      ensures Frontier(strategy) ==
              old(Frontier(strategy)) + Expand(strategy, plugin, node, plugin.moves.actions(node.state), old(nodeMap)).1
      ensures Unused(strategy) == old(Unused(strategy))
    {
      var state := node.state;
      var actions := plugin.moves.actions(state);
      ghost var m0, items0 := nodeMap, Frontier(strategy);
      assert actions[..0] == [];
      for j := 0 to |actions|
        invariant nodeMap == Expand(strategy, plugin, node, actions[..j], m0).0
        invariant Frontier(strategy) == items0 + Expand(strategy, plugin, node, actions[..j], m0).1
        invariant Unused(strategy) == old(Unused(strategy))
      {
        assert actions[..j + 1][..j] == actions[..j];
        var action := actions[j];
        var child := plugin.moves.transfer(state, action);
        if child !in nodeMap {
          var childNode := ChildNode(strategy, plugin, node, action, child);
          nodeMap := nodeMap[child := childNode];
          Push(strategy, childNode);
        }
      }
      assert actions[..|actions|] == actions;
    }

    /** Breadth-first: the queue, and makeNode gives every node cost and
        depth 0. */
    method BreadthFirstSearch(ghost universe: set<S>) returns (r: Option<S>)
      requires startState in universe && Closed(plugin.moves, universe)
      modifies this`goalState, this`stack, this`queue, this`priorityQueue, this`nodeMap, this`rank
      ensures Reported(BreadthFirst, r)
      ensures Unused(BreadthFirst) == ([], [])
      ensures forall k :: k in nodeMap ==> nodeMap[k].cost == 0 && nodeMap[k].depth == 0
    {
      r := Search(BreadthFirst, universe);
    }

    /** Depth-first: the stack, and makeNode gives every node cost and
        depth 0. */
    method DepthFirstSearch(ghost universe: set<S>) returns (r: Option<S>)
      requires startState in universe && Closed(plugin.moves, universe)
      modifies this`goalState, this`stack, this`queue, this`priorityQueue, this`nodeMap, this`rank
      ensures Reported(DepthFirst, r)
      ensures Unused(DepthFirst) == ([], [])
      ensures forall k :: k in nodeMap ==> nodeMap[k].cost == 0 && nodeMap[k].depth == 0
    {
      r := Search(DepthFirst, universe);
    }

    /** Uniform-cost: the priority queue, each node costed by its edge. */
    method UniformCostSearch(ghost universe: set<S>) returns (r: Option<S>)
      requires startState in universe && Closed(plugin.moves, universe)
      modifies this`goalState, this`stack, this`queue, this`priorityQueue, this`nodeMap, this`rank
      ensures Reported(UniformCost, r)
      ensures Unused(UniformCost) == ([], [])
      ensures forall k :: k in nodeMap ==> nodeMap[k].depth == rank[k]
    {
      r := Search(UniformCost, universe);
    }

    /** Greedy: the priority queue, each node costed by its heuristic. */
    method GreedySearch(ghost universe: set<S>) returns (r: Option<S>)
      requires startState in universe && Closed(plugin.moves, universe)
      modifies this`goalState, this`stack, this`queue, this`priorityQueue, this`nodeMap, this`rank
      ensures Reported(Greedy, r)
      ensures Unused(Greedy) == ([], [])
      ensures forall k :: k in nodeMap ==> nodeMap[k].depth == rank[k]
      ensures forall k :: k in nodeMap && k != startState ==> nodeMap[k].cost == plugin.h(k)
    {
      r := Search(Greedy, universe);
    }

    /** A*: the priority queue, each node costed by its heuristic plus its
        edge cost. */
    method AStarSearch(ghost universe: set<S>) returns (r: Option<S>)
      requires startState in universe && Closed(plugin.moves, universe)
      modifies this`goalState, this`stack, this`queue, this`priorityQueue, this`nodeMap, this`rank
      ensures Reported(AStar, r)
      ensures Unused(AStar) == ([], [])
      ensures forall k :: k in nodeMap ==> nodeMap[k].depth == rank[k]
    {
      r := Search(AStar, universe);
    }
  }
}
