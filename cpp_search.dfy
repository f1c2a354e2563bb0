/** The canonical C++ engine: one traversal loop, baseSearch, over a
    Container that is a stack, a queue or a priority queue, configured five
    ways (breadth-first, depth-first, uniform-cost, greedy, A*). */
module CppSearch {
  import opened Common

  /** Problem::Node: the state, the state it was discovered from, the
      priority it is queued by (cost), its depth and its edge cost g. */
  datatype Node<S> = Node(parent: S, state: S, cost: int, depth: nat, g: int)

  /** Problem::CostFunction: a cost computed from a state, an action and the
      state the action leads to. */
  type CostFunction<!S, !A> = (S, A, S) -> int

  /** The template argument of Container: 's', 'q' or 'p'. */
  datatype Discipline = Stack | Queue | Priority

  /** Node::operator<, which reads "a is below b": a costs more than b. */
  predicate Below<S>(a: Node<S>, b: Node<S>)
  {
    a.cost > b.cost
  }

  /** What std::priority_queue<Node>::top may return: a node of items that
      no node of items is above under operator<. */
  ghost predicate IsTop<S>(items: seq<Node<S>>, n: Node<S>)
  {
    n in items && forall m :: m in items ==> !Below(n, m)
  }

  /** The node of least cost that was pushed first.  The heap picks some node
      of least cost; the model fixes the earliest of them. */
  function MinCostIndex<S>(items: seq<Node<S>>): (i: nat)
    requires items != []
    ensures i < |items|
    ensures IsTop(items, items[i])
    ensures forall j :: 0 <= j < |items| ==> items[i].cost <= items[j].cost
    ensures forall j :: 0 <= j < i ==> items[i].cost < items[j].cost
    decreases |items|
  {
    if |items| == 1 then 0
    else
      var k := MinCostIndex(items[..|items| - 1]);
      if items[|items| - 1].cost < items[k].cost then |items| - 1 else k
  }

  /** Container<type>: the frontier.  Whatever the discipline, the nodes are
      kept in the order they were pushed; the discipline decides which of
      them peek returns and pop removes. */
  class Container<S> {
    const kind: Discipline
    var items: seq<Node<S>>

    constructor (kind: Discipline)
      ensures this.kind == kind && items == []
    {
      this.kind := kind;
      items := [];
    }

    /** Index of the node that peek returns and pop removes. */
    function Next(): (i: nat)
      reads this
      requires items != []
      ensures i < |items|
      ensures kind == Stack ==> i == |items| - 1
      ensures kind == Queue ==> i == 0
      ensures kind == Priority ==> IsTop(items, items[i])
    {
      match kind
      case Stack => |items| - 1
      case Queue => 0
      case Priority => MinCostIndex(items)
    }

    method Push(node: Node<S>)
      modifies this`items
      ensures items == old(items) + [node]
    {
      items := items + [node];
    }

    method Pop()
      requires items != []
      modifies this`items
      ensures items == old(Remove(items, Next()))
    {
      items := Remove(items, Next());
    }

    method Peek() returns (node: Node<S>)
      requires items != []
      ensures node == items[Next()]
      ensures kind == Stack ==> node == items[|items| - 1]
      ensures kind == Queue ==> node == items[0]
      ensures kind == Priority ==> node in items && forall m :: m in items ==> node.cost <= m.cost
    {
      node := items[Next()];
    }

    method Empty() returns (r: bool)
      ensures r <==> items == []
    {
      r := |items| == 0;
    }
  }

  /** The node the search starts from: its own parent, cost, depth and g 0. */
  function StartNode<S>(start: S): Node<S>
  {
    Node(start, start, 0, 0, 0)
  }

  /** The node built for childState when action is taken from node. */
  function Child<S, A>(f: CostFunction<S, A>, g: CostFunction<S, A>, node: Node<S>, action: A, childState: S): Node<S>
  {
    Node(node.state, childState, f(node.state, action, childState), node.depth + 1, g(node.state, action, childState))
  }

  /** nodeMap, and the nodes pushed, after the loop over actions that
      expands node has run over acts starting from nodeMap m. */
  function Expand<S(==), A>(moves: Transitions<S, A>, f: CostFunction<S, A>, g: CostFunction<S, A>,
                            node: Node<S>, acts: seq<A>, m: map<S, Node<S>>): (map<S, Node<S>>, seq<Node<S>>)
    decreases |acts|
  {
    if acts == [] then (m, [])
    else
      var (m1, pushed) := Expand(moves, f, g, node, acts[..|acts| - 1], m);
      var action := acts[|acts| - 1];
      var childState := moves.transfer(node.state, action);
      if childState in m1 then (m1, pushed)
      else
        var child := Child(f, g, node, action, childState);
        (m1[childState := child], pushed + [child])
  }

  /** Node n was entered when its parent was expanded: the parent is valid,
      not a goal, and offers an action leading to n's state whose costs are
      n's cost and g. */
  ghost predicate Expanded<S, A>(p: Plugin<S, A>, f: CostFunction<S, A>, g: CostFunction<S, A>, n: Node<S>)
  {
    && p.moves.isValid(n.parent)
    && !p.isGoal(n.parent)
    && exists a :: a in p.moves.actions(n.parent) && p.moves.transfer(n.parent, a) == n.state
                   && n.cost == f(n.parent, a, n.state) && n.g == g(n.parent, a, n.state)
  }

  /** The parent-chain invariant of nodeMap: the start maps to the start
      node, every entry is keyed by its state, and every other entry's parent
      is a key one level shallower. */
  ghost predicate ParentChain<S>(m: map<S, Node<S>>, start: S)
  {
    && start in m && m[start] == StartNode(start)
    && (forall k :: k in m ==> m[k].state == k)
    && (forall k :: k in m && k != start ==> m[k].parent in m && m[m[k].parent].depth + 1 == m[k].depth)
  }

  /** After k was popped: an invalid k was skipped; a valid k was not a goal
      and all its successors are keys of m. */
  ghost predicate Done<S, A>(p: Plugin<S, A>, m: map<S, Node<S>>, k: S)
  {
    p.moves.isValid(k) ==> !p.isGoal(k) && forall a :: a in p.moves.actions(k) ==> p.moves.transfer(k, a) in m
  }

  /** Some node of frontier has state k. */
  ghost predicate Queued<S>(frontier: seq<Node<S>>, k: S)
  {
    exists j :: 0 <= j < |frontier| && frontier[j].state == k
  }

  /** No two nodes of frontier share a state. */
  ghost predicate Distinct<S>(frontier: seq<Node<S>>)
  {
    forall i, j :: 0 <= i < j < |frontier| ==> frontier[i].state != frontier[j].state
  }

  /** Every entry other than the start's was entered by an expansion, along
      the parent chain. */
  ghost predicate Discovered<S, A>(p: Plugin<S, A>, f: CostFunction<S, A>, g: CostFunction<S, A>, start: S,
                                   m: map<S, Node<S>>)
  {
    && ParentChain(m, start)
    && (forall k :: k in m && k != start ==> Expanded(p, f, g, m[k]))
  }

  /** Each frontier node is the entry of its state, not yet popped, and no
      two frontier nodes share a state. */
  ghost predicate Pending<S>(m: map<S, Node<S>>, frontier: seq<Node<S>>, closed: set<S>)
  {
    && (forall j :: 0 <= j < |frontier| ==> frontier[j].state in m && m[frontier[j].state] == frontier[j])
    && (forall j :: 0 <= j < |frontier| ==> frontier[j].state !in closed)
    && Distinct(frontier)
  }

  /** Every key has been popped or is waiting on the frontier, and every
      popped state is a key. */
  ghost predicate Covers<S>(m: map<S, Node<S>>, frontier: seq<Node<S>>, closed: set<S>)
  {
    && (forall k :: k in m ==> k in closed || Queued(frontier, k))
    && closed <= m.Keys
  }

  /** Every popped state is done. */
  ghost predicate AllDone<S, A>(p: Plugin<S, A>, m: map<S, Node<S>>, closed: set<S>)
  {
    forall k :: k in closed ==> Done(p, m, k)
  }

  /** The invariant of baseSearch's loop, with closed the states popped so
      far. */
  ghost predicate Explored<S, A>(p: Plugin<S, A>, f: CostFunction<S, A>, g: CostFunction<S, A>, start: S,
                                 m: map<S, Node<S>>, frontier: seq<Node<S>>, closed: set<S>)
  {
    && Discovered(p, f, g, start, m)
    && Pending(m, frontier, closed)
    && Covers(m, frontier, closed)
    && AllDone(p, m, closed)
  }

  /** Expanding node never replaces an entry (first discovery wins), enters
      every successor, and every state it enters is a child of node. */
  lemma {:induction false} ExpandKeeps<S, A>(moves: Transitions<S, A>, f: CostFunction<S, A>, g: CostFunction<S, A>,
                                             node: Node<S>, acts: seq<A>, m: map<S, Node<S>>)
    ensures var m' := Expand(moves, f, g, node, acts, m).0;
      && (forall k :: k in m ==> k in m' && m'[k] == m[k])
      && (forall a :: a in acts ==> moves.transfer(node.state, a) in m')
      && (forall k :: k in m' && k !in m ==>
            exists a :: a in acts && moves.transfer(node.state, a) == k && m'[k] == Child(f, g, node, a, k))
    decreases |acts|
  {
    if acts != [] {
      var init := acts[..|acts| - 1];
      ExpandKeeps(moves, f, g, node, init, m);
      var m1 := Expand(moves, f, g, node, init, m).0;
      var action := acts[|acts| - 1];
      var childState := moves.transfer(node.state, action);
      var m' := Expand(moves, f, g, node, acts, m).0;
      forall a | a in acts
        ensures moves.transfer(node.state, a) in m'
      {
        if a != action {
          assert a in init;
        }
      }
      forall k | k in m' && k !in m
        ensures exists a :: a in acts && moves.transfer(node.state, a) == k && m'[k] == Child(f, g, node, a, k)
      {
        if k !in m1 {
          assert k == childState && m'[k] == Child(f, g, node, action, childState);
          assert action in acts;
        } else {
          var a :| a in init && moves.transfer(node.state, a) == k && m1[k] == Child(f, g, node, a, k);
          assert a in acts;
        }
      }
    }
  }

  /** The nodes pushed while expanding node are exactly the entries of the
      states newly entered, each pushed once. */
  lemma {:induction false} ExpandPushed<S, A>(moves: Transitions<S, A>, f: CostFunction<S, A>, g: CostFunction<S, A>,
                                              node: Node<S>, acts: seq<A>, m: map<S, Node<S>>)
    ensures var (m', pushed) := Expand(moves, f, g, node, acts, m);
      && (forall j :: 0 <= j < |pushed| ==> pushed[j].state in m' && pushed[j].state !in m && m'[pushed[j].state] == pushed[j])
      && (forall k :: k in m' && k !in m ==> Queued(pushed, k))
      && Distinct(pushed)
    decreases |acts|
  {
    if acts != [] {
      var init := acts[..|acts| - 1];
      ExpandPushed(moves, f, g, node, init, m);
      ExpandKeeps(moves, f, g, node, init, m);
      var (m1, pushed1) := Expand(moves, f, g, node, init, m);
      var action := acts[|acts| - 1];
      var childState := moves.transfer(node.state, action);
      if childState !in m1 {
        var child := Child(f, g, node, action, childState);
        var (m', pushed) := Expand(moves, f, g, node, acts, m);
        assert m' == m1[childState := child] && pushed == pushed1 + [child];
        forall j | 0 <= j < |pushed|
          ensures pushed[j].state in m' && pushed[j].state !in m && m'[pushed[j].state] == pushed[j]
        {
          if j < |pushed1| {
            assert pushed[j] == pushed1[j];
          }
        }
        forall k | k in m' && k !in m
          ensures Queued(pushed, k)
        {
          if k == childState {
            assert pushed[|pushed| - 1].state == k;
          } else {
            var j :| 0 <= j < |pushed1| && pushed1[j].state == k;
            assert pushed[j].state == k;
          }
        }
      }
    }
  }

  /** The state right after seeding (nodeMap holds only the start node, which
      is the only frontier node, and nothing is closed) meets the invariant. */
  lemma SeedExplored<S, A>(p: Plugin<S, A>, f: CostFunction<S, A>, g: CostFunction<S, A>, start: S)
    ensures Explored(p, f, g, start, map[start := StartNode(start)], [StartNode(start)], {})
  {
    assert [StartNode(start)][0].state == start;
  }

  /** Removing frontier[i] and appending nodes for states new to the map
      keeps the frontier pending once frontier[i]'s state is popped. */
  lemma PendingAfterPop<S>(m: map<S, Node<S>>, frontier: seq<Node<S>>, closed: set<S>, i: nat,
                           m': map<S, Node<S>>, pushed: seq<Node<S>>)
    requires Pending(m, frontier, closed) && closed <= m.Keys && i < |frontier|
    requires forall k :: k in m ==> k in m' && m'[k] == m[k]
    requires forall j :: 0 <= j < |pushed| ==> pushed[j].state in m' && pushed[j].state !in m && m'[pushed[j].state] == pushed[j]
    requires Distinct(pushed)
    ensures Pending(m', Remove(frontier, i) + pushed, closed + {frontier[i].state})
  {
    var st := frontier[i].state;
    var rest := Remove(frontier, i);
    var frontier' := rest + pushed;
    forall j | 0 <= j < |frontier'|
      ensures frontier'[j].state in m' && m'[frontier'[j].state] == frontier'[j]
      ensures frontier'[j].state !in closed + {st}
    {
      if j >= |rest| {
        assert frontier'[j] == pushed[j - |rest|];
      } else if j < i {
        assert frontier'[j] == frontier[j];
      } else {
        assert frontier'[j] == frontier[j + 1];
      }
    }
    forall j1, j2 | 0 <= j1 < j2 < |frontier'|
      ensures frontier'[j1].state != frontier'[j2].state
    {
      var o1 := if j1 < i then j1 else j1 + 1;
      if j2 < |rest| {
        var o2 := if j2 < i then j2 else j2 + 1;
        assert frontier'[j1] == frontier[o1] && frontier'[j2] == frontier[o2];
      } else if j1 >= |rest| {
        assert frontier'[j1] == pushed[j1 - |rest|] && frontier'[j2] == pushed[j2 - |rest|];
      } else {
        assert frontier'[j2] == pushed[j2 - |rest|];
        assert frontier'[j1] == frontier[o1];
      }
    }
  }

  /** Removing frontier[i] and appending a node for every state new to the
      map keeps every key popped or queued once frontier[i]'s state is
      popped. */
  lemma CoversAfterPop<S>(m: map<S, Node<S>>, frontier: seq<Node<S>>, closed: set<S>, i: nat,
                          m': map<S, Node<S>>, pushed: seq<Node<S>>)
    requires Covers(m, frontier, closed) && i < |frontier| && frontier[i].state in m
    requires m.Keys <= m'.Keys
    requires forall k :: k in m' && k !in m ==> Queued(pushed, k)
    ensures Covers(m', Remove(frontier, i) + pushed, closed + {frontier[i].state})
  {
    var rest := Remove(frontier, i);
    var frontier' := rest + pushed;
    var closed' := closed + {frontier[i].state};
    forall k | k in m'
      ensures k in closed' || Queued(frontier', k)
    {
      if k !in m {
        var j :| 0 <= j < |pushed| && pushed[j].state == k;
        assert frontier'[|rest| + j].state == k;
      } else if k !in closed' {
        var j :| 0 <= j < |frontier| && frontier[j].state == k;
        if j < i {
          assert frontier'[j].state == k;
        } else {
          assert frontier'[j - 1].state == k;
        }
      }
    }
  }

  /** Popping an invalid state and skipping it keeps the invariant. */
  lemma PopInvalidExplored<S, A>(p: Plugin<S, A>, f: CostFunction<S, A>, g: CostFunction<S, A>, start: S,
                                 m: map<S, Node<S>>, frontier: seq<Node<S>>, closed: set<S>, i: nat)
    requires Explored(p, f, g, start, m, frontier, closed)
    requires i < |frontier| && !p.moves.isValid(frontier[i].state)
    ensures Explored(p, f, g, start, m, Remove(frontier, i), closed + {frontier[i].state})
  {
    var empty: seq<Node<S>> := [];
    PendingAfterPop(m, frontier, closed, i, m, empty);
    CoversAfterPop(m, frontier, closed, i, m, empty);
    assert Remove(frontier, i) + empty == Remove(frontier, i);
  }

  /** Expanding node keeps the parent chain, and every new entry is a child
      of node. */
  lemma ExpandChain<S, A>(p: Plugin<S, A>, f: CostFunction<S, A>, g: CostFunction<S, A>, start: S,
                          m: map<S, Node<S>>, node: Node<S>)
    requires Discovered(p, f, g, start, m)
    requires node.state in m && m[node.state] == node
    requires p.moves.isValid(node.state) && !p.isGoal(node.state)
    ensures Discovered(p, f, g, start, Expand(p.moves, f, g, node, p.moves.actions(node.state), m).0)
  {
    var acts := p.moves.actions(node.state);
    ExpandKeeps(p.moves, f, g, node, acts, m);
    var m' := Expand(p.moves, f, g, node, acts, m).0;
    forall k | k in m' && k != start
      ensures m'[k].parent in m' && m'[m'[k].parent].depth + 1 == m'[k].depth
      ensures Expanded(p, f, g, m'[k])
    {
      if k !in m {
        var a :| a in acts && p.moves.transfer(node.state, a) == k && m'[k] == Child(f, g, node, a, k);
      }
    }
  }

  /** Popping a valid non-goal node and expanding it keeps the invariant. */
  lemma ExpandExplored<S, A>(p: Plugin<S, A>, f: CostFunction<S, A>, g: CostFunction<S, A>, start: S,
                             m: map<S, Node<S>>, frontier: seq<Node<S>>, closed: set<S>, i: nat)
    requires Explored(p, f, g, start, m, frontier, closed)
    requires i < |frontier|
    requires p.moves.isValid(frontier[i].state) && !p.isGoal(frontier[i].state)
    ensures var (m', pushed) := Expand(p.moves, f, g, frontier[i], p.moves.actions(frontier[i].state), m);
      Explored(p, f, g, start, m', Remove(frontier, i) + pushed, closed + {frontier[i].state})
  {
    var st := frontier[i].state;
    var acts := p.moves.actions(st);
    ExpandChain(p, f, g, start, m, frontier[i]);
    ExpandKeeps(p.moves, f, g, frontier[i], acts, m);
    ExpandPushed(p.moves, f, g, frontier[i], acts, m);
    var (m', pushed) := Expand(p.moves, f, g, frontier[i], acts, m);
    PendingAfterPop(m, frontier, closed, i, m', pushed);
    CoversAfterPop(m, frontier, closed, i, m', pushed);
    forall k | k in closed + {st}
      ensures Done(p, m', k)
    {
      if k != st {
        assert Done(p, m, k);
      }
    }
  }

  /** Expanding a valid state of a closed universe stays inside it, and
      either enters a state new to nodeMap or pushes nothing. */
  lemma ExpandProgress<S, A>(moves: Transitions<S, A>, f: CostFunction<S, A>, g: CostFunction<S, A>,
                             node: Node<S>, m: map<S, Node<S>>, universe: set<S>)
    requires Closed(moves, universe) && m.Keys <= universe
    requires node.state in universe && moves.isValid(node.state)
    ensures var (m', pushed) := Expand(moves, f, g, node, moves.actions(node.state), m);
      && m'.Keys <= universe
      && (universe - m'.Keys < universe - m.Keys || (m'.Keys == m.Keys && pushed == []))
  {
    var acts := moves.actions(node.state);
    ExpandKeeps(moves, f, g, node, acts, m);
    ExpandPushed(moves, f, g, node, acts, m);
    var (m', pushed) := Expand(moves, f, g, node, acts, m);
    forall k | k in m' && k !in m
      ensures k in universe
    {
      var a :| a in acts && moves.transfer(node.state, a) == k && m'[k] == Child(f, g, node, a, k);
    }
    if pushed != [] {
      assert pushed[0].state in universe - m.Keys;
    }
  }

  /** When the frontier is empty, the explored states are closed under the
      moves of their valid members and none of them is a valid goal. */
  lemma ExhaustedExplored<S, A>(p: Plugin<S, A>, f: CostFunction<S, A>, g: CostFunction<S, A>, start: S,
                                m: map<S, Node<S>>, closed: set<S>)
    requires Explored(p, f, g, start, m, [], closed)
    ensures Closed(p.moves, m.Keys)
    ensures forall k :: k in m ==> !(p.moves.isValid(k) && p.isGoal(k))
  {
    forall k | k in m
      ensures Done(p, m, k)
    {
      assert k in closed;
    }
  }

  /** An exhausted search leaves no valid goal that a legal run from the
      start can reach. */
  lemma {:induction false} ExhaustedUnreachable<S, A>(p: Plugin<S, A>, m: map<S, Node<S>>, start: S, acts: seq<A>)
    requires Closed(p.moves, m.Keys) && start in m
    requires forall k :: k in m ==> !(p.moves.isValid(k) && p.isGoal(k))
    requires Legal(p.moves, start, acts)
    ensures Follow(p.moves, start, acts) in m
    ensures !(p.moves.isValid(Follow(p.moves, start, acts)) && p.isGoal(Follow(p.moves, start, acts)))
  {
    ClosedHoldsRuns(p.moves, m.Keys, start, acts);
  }

  /** Every key of nodeMap is reached from the start by a legal run of as
      many actions as its depth: following parents back from a key retraces
      the moves that discovered it. */
  lemma {:induction false} KeysReachable<S, A>(p: Plugin<S, A>, f: CostFunction<S, A>, g: CostFunction<S, A>,
                                               m: map<S, Node<S>>, start: S, k: S)
    requires ParentChain(m, start)
    requires forall k :: k in m && k != start ==> Expanded(p, f, g, m[k])
    requires k in m
    ensures exists acts :: Legal(p.moves, start, acts) && Follow(p.moves, start, acts) == k && |acts| == m[k].depth
    decreases m[k].depth
  {
    if k == start {
      assert Legal(p.moves, start, []) && Follow(p.moves, start, []) == start;
    } else {
      var parent := m[k].parent;
      KeysReachable(p, f, g, m, start, parent);
      var acts :| Legal(p.moves, start, acts) && Follow(p.moves, start, acts) == parent && |acts| == m[parent].depth;
      assert Expanded(p, f, g, m[k]);
      var a :| a in p.moves.actions(parent) && p.moves.transfer(parent, a) == k
               && m[k].cost == f(parent, a, k) && m[k].g == g(parent, a, k);
      FollowSnoc(p.moves, start, acts, a);
      assert Legal(p.moves, start, acts + [a]) && Follow(p.moves, start, acts + [a]) == k;
    }
  }

  /** The five cost-function pairs of the strategy entry points. */
  function Zero<S, A>(): CostFunction<S, A>
  {
    (s: S, a: A, c: S) => 0
  }

  function EdgeCost<S, A>(p: Plugin<S, A>): CostFunction<S, A>
  {
    (s: S, a: A, c: S) => p.g(s, a)
  }

  function ChildHeuristic<S, A>(p: Plugin<S, A>): CostFunction<S, A>
  {
    (s: S, a: A, c: S) => p.h(c)
  }

  function EdgeCostPlusHeuristic<S, A>(p: Plugin<S, A>): CostFunction<S, A>
  {
    (s: S, a: A, c: S) => p.g(s, a) + p.h(c)
  }

  /** Problem<State, Action, Cost>: the plug-in, the start state, the goal
      found by the last search and the map of discovered states. */
  class Problem<S(==), A> {
    const plugin: Plugin<S, A>
    var startState: S
    var goalState: Option<S>
    var nodeMap: map<S, Node<S>>

    constructor (plugin: Plugin<S, A>, startState: S)
      ensures this.plugin == plugin && this.startState == startState
      ensures goalState == None && nodeMap == map[]
    {
      this.plugin := plugin;
      this.startState := startState;
      goalState := None;
      nodeMap := map[];
    }

    method SetStartState(state: S)
      modifies this`startState
      ensures startState == state
    {
      startState := state;
    }

    method Clear()
      modifies this`goalState, this`nodeMap
      ensures goalState == None && nodeMap == map[]
    {
      goalState := None;
      nodeMap := map[];
    }

    /** What a search with cost functions f and g leaves behind and returns. */
    ghost predicate Reported(r: Option<S>, f: CostFunction<S, A>, g: CostFunction<S, A>)
      reads this
    {
      && Discovered(plugin, f, g, startState, nodeMap)
      && goalState == r
      && (r.Some? ==> r.value in nodeMap && plugin.moves.isValid(r.value) && plugin.isGoal(r.value))
      && (r.None? ==> Closed(plugin.moves, nodeMap.Keys))
      && (r.None? ==> forall k :: k in nodeMap ==> !(plugin.moves.isValid(k) && plugin.isGoal(k)))
    }

    /** baseSearch.  The container it is given is always freshly constructed
        and passed by value, so the model takes its discipline.  universe is
        a finite set of states, closed under the moves of valid states, that
        holds the start: it bounds nodeMap and makes the loop terminate. */
    method BaseSearch(kind: Discipline, f: CostFunction<S, A>, g: CostFunction<S, A>, ghost universe: set<S>)
      returns (r: Option<S>)
      requires startState in universe && Closed(plugin.moves, universe)
      modifies this`goalState, this`nodeMap
      ensures nodeMap.Keys <= universe
      ensures Reported(r, f, g)
    {
      var container := new Container<S>(kind);
      Clear();
      var state := startState;
      var node := StartNode(state);
      nodeMap := nodeMap[state := node];
      container.Push(node);
      ghost var closed: set<S> := {};
      SeedExplored(plugin, f, g, startState);
      assert nodeMap == map[startState := StartNode(startState)] && container.items == [StartNode(startState)];
      while true
        invariant Explored(plugin, f, g, startState, nodeMap, container.items, closed)
        invariant nodeMap.Keys <= universe
        invariant goalState == None
        decreases universe - nodeMap.Keys, |container.items|
      {
        var isEmpty := container.Empty();
        if isEmpty {
          ExhaustedExplored(plugin, f, g, startState, nodeMap, closed);
          return None;
        }
        r, closed := Step(container, f, g, closed, universe);
        if r.Some? {
          return;
        }
      }
    }

    /** One turn of baseSearch's loop: peek and pop the next node, skip it if
        it is invalid, stop with it if it is a goal, and expand it otherwise. */
    method Step(container: Container<S>, f: CostFunction<S, A>, g: CostFunction<S, A>, ghost closed: set<S>,
                ghost universe: set<S>) returns (found: Option<S>, ghost closed': set<S>)
      requires Explored(plugin, f, g, startState, nodeMap, container.items, closed)
      requires container.items != [] && goalState == None
      requires Closed(plugin.moves, universe) && nodeMap.Keys <= universe
      modifies this`goalState, this`nodeMap, container`items
      ensures nodeMap.Keys <= universe && goalState == found
      ensures found.Some? ==> && Discovered(plugin, f, g, startState, nodeMap)
                              && found.value in nodeMap && plugin.moves.isValid(found.value)
                              && plugin.isGoal(found.value)
      ensures found.None? ==> Explored(plugin, f, g, startState, nodeMap, container.items, closed')
      ensures found.None? ==> || universe - nodeMap.Keys < old(universe - nodeMap.Keys)
                              || (nodeMap.Keys == old(nodeMap.Keys) && |container.items| < old(|container.items|))
    {
      ghost var frontier := container.items;
      ghost var i := container.Next();
      var node := container.Peek();
      container.Pop();
      var state := node.state;
      if !plugin.moves.isValid(state) {
        PopInvalidExplored(plugin, f, g, startState, nodeMap, frontier, closed, i);
        return None, closed + {state};
      }
      if plugin.isGoal(state) {
        goalState := Some(state);
        return goalState, closed;
      }
      ghost var m0 := nodeMap;
      ExpandNode(container, node, f, g);
      ExpandExplored(plugin, f, g, startState, m0, frontier, closed, i);
      ExpandProgress(plugin.moves, f, g, node, m0, universe);
      found, closed' := None, closed + {state};
    }

    /** The loop over the actions of a popped valid non-goal node: each
        successor that is not yet a key is entered into nodeMap with its
        child node, which is pushed. */
    method ExpandNode(container: Container<S>, node: Node<S>, f: CostFunction<S, A>, g: CostFunction<S, A>)
      modifies this`nodeMap, container`items
      ensures (nodeMap, container.items) ==
              (Expand(plugin.moves, f, g, node, plugin.moves.actions(node.state), old(nodeMap)).0,
               old(container.items) + Expand(plugin.moves, f, g, node, plugin.moves.actions(node.state), old(nodeMap)).1)
    {
      var state := node.state;
      var actions := plugin.moves.actions(state);
      ghost var m0, items0 := nodeMap, container.items;
      assert actions[..0] == [];
      for j := 0 to |actions|
        invariant nodeMap == Expand(plugin.moves, f, g, node, actions[..j], m0).0
        invariant container.items == items0 + Expand(plugin.moves, f, g, node, actions[..j], m0).1
      {
        assert actions[..j + 1][..j] == actions[..j];
        var action := actions[j];
        var childState := plugin.moves.transfer(state, action);
        if childState !in nodeMap {
          var childNode := Node(state, childState, f(state, action, childState), node.depth + 1, g(state, action, childState));
          nodeMap := nodeMap[childState := childNode];
          container.Push(childNode);
        }
      }
      assert actions[..|actions|] == actions;
    }

    /** Breadth-first: a queue, priority and g both 0. */
    method BreadthFirstSearch(ghost universe: set<S>) returns (r: Option<S>)
      requires startState in universe && Closed(plugin.moves, universe)
      modifies this`goalState, this`nodeMap
      ensures Reported(r, Zero(), Zero())
      ensures forall k :: k in nodeMap ==> nodeMap[k].cost == 0 && nodeMap[k].g == 0
    {
      r := BaseSearch(Queue, Zero(), Zero(), universe);
    }

    /** Depth-first: a stack, priority and g both 0. */
    method DepthFirstSearch(ghost universe: set<S>) returns (r: Option<S>)
      requires startState in universe && Closed(plugin.moves, universe)
      modifies this`goalState, this`nodeMap
      ensures Reported(r, Zero(), Zero())
      ensures forall k :: k in nodeMap ==> nodeMap[k].cost == 0 && nodeMap[k].g == 0
    {
      r := BaseSearch(Stack, Zero(), Zero(), universe);
    }

    /** Uniform-cost: a priority queue, priority and g both the edge cost. */
    method UniformCostSearch(ghost universe: set<S>) returns (r: Option<S>)
      requires startState in universe && Closed(plugin.moves, universe)
      modifies this`goalState, this`nodeMap
      ensures Reported(r, EdgeCost(plugin), EdgeCost(plugin))
      ensures forall k :: k in nodeMap ==> nodeMap[k].cost == nodeMap[k].g
    {
      r := BaseSearch(Priority, EdgeCost(plugin), EdgeCost(plugin), universe);
    }

    /** Greedy: a priority queue, priority the child's heuristic, g 0. */
    method GreedySearch(ghost universe: set<S>) returns (r: Option<S>)
      requires startState in universe && Closed(plugin.moves, universe)
      modifies this`goalState, this`nodeMap
      ensures Reported(r, ChildHeuristic(plugin), Zero())
      ensures forall k :: k in nodeMap ==> nodeMap[k].g == 0
      ensures forall k :: k in nodeMap && k != startState ==> nodeMap[k].cost == plugin.h(k)
    {
      r := BaseSearch(Priority, ChildHeuristic(plugin), Zero(), universe);
    }

    /** A*: a priority queue, priority edge cost plus the child's heuristic,
        g the edge cost. */
    method AStarSearch(ghost universe: set<S>) returns (r: Option<S>)
      requires startState in universe && Closed(plugin.moves, universe)
      modifies this`goalState, this`nodeMap
      ensures Reported(r, EdgeCostPlusHeuristic(plugin), EdgeCost(plugin))
      ensures forall k :: k in nodeMap && k != startState ==> nodeMap[k].cost == nodeMap[k].g + plugin.h(k)
    {
      r := BaseSearch(Priority, EdgeCostPlusHeuristic(plugin), EdgeCost(plugin), universe);
    }
  }
}
