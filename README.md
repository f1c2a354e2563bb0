# CommonSearch in Dafny

CommonSearch is one generic state-space search engine written four times:

- a canonical C++ engine (`Cpp/include/Search.hpp`), with one traversal loop, `baseSearch`;
- an earlier C++ engine (`include/Search.hpp`), with five hand-copied loops;
- a Rust port (`Rust/src/lib.rs`);
- a Java port (`Java/src/Problem.java`).

Each engine offers breadth-first, depth-first, uniform-cost, greedy and A* search. Each one runs over a problem that supplies:

- the actions a state offers;
- the state an action leads to;
- a validity test and a goal test;
- an edge cost `g` and a heuristic `h`.

The eight-puzzle plug-in of `debug.cpp` runs over the earlier C++ engine. It supplies a blank-swap move on a 3x3 board and a walk that prints the path back from the goal.

The model has six modules:

- `Common` (`common.dfy`) holds the shared vocabulary:
  - the plug-in, as a datatype of functions;
  - legal runs of actions, and sets of states closed under moves;
  - the `Outcome` of a search bounded by fuel;
  - the bookkeeping shared by the corrected Rust and Java searches.
- `CppSearch` (`cpp_search.dfy`) models the canonical engine:
  - `Container` is a class over a sequence of nodes. The discipline decides which node `peek` returns and `pop` removes.
  - `Problem` is a class whose fields `nodeMap` and `goalState` are updated in place.
  - `BaseSearch` runs the loop with its invariant `Explored`. It is proved to return a valid goal that was discovered along parent links from the start. When it returns nothing, the discovered states are closed under moves and hold no valid goal, so no legal run from the start reaches one.
- `LegacySearch` (`legacy_search.dfy`) models the earlier engine:
  - the class keeps the three frontier fields and `nodeMap`;
  - one loop, `Search`, is parameterised by the strategy.
  It keeps three differences from the canonical engine. The goal test comes before the validity test. Breadth- and depth-first nodes get cost and depth 0. The priority queue hands out a most costly node.
- `RustSearch` (`rust_search.dfy`) and `JavaSearch` (`java_search.dfy`) model the ports as written. The duplicate test is inverted in every search, so the model proves the exact outcome: only the start can ever be pushed or returned. They also hold corrected searches with the test negated, proved sound. They never report an empty result while a valid goal is reachable from the start. No step bound is proved to be enough for an answer: a run can still stop at `OutOfFuel`.
- `EightPuzzle` (`eight_puzzle.dfy`) models the plug-in of `debug.cpp` over the earlier engine:
  - the goal test and the adjacency table;
  - the scan in `getActions` and the in-place swap in `transferState`;
  - the parent walk of `printPath`;
  - the driver that runs A* and walks the path.

Termination:

- The C++ loops terminate on a finite set of states, closed under moves, that contains the start. Their methods take this set as a ghost parameter `universe`. The eight puzzle supplies one: the boards of the start's size made of the start's tiles (`PuzzleUniverse`).
- The Rust and Java loops can run for ever. They take a `fuel` step bound, and `OutOfFuel` stands for "still looping".

A priority queue in the source may return any node of best priority. The model fixes the earliest pushed such node. Each function that picks it states the source's guarantee (`IsTop`, least or greatest cost) and also the tie-break.

## Model

| member | source | states |
|---|---|---|
| Common.ClosedHoldsRuns | Cpp/include/Search.hpp:176-184 | a set closed under the moves of its valid states holds every state a legal run from a member reaches |
| Common.SettleKeepsCovered | Rust/src/lib.rs:45-53 | popping a state and pushing its unvisited successors keeps the visited/queued/settled bookkeeping of a duplicate-free search |
| Common.CoveredExhausted | Rust/src/lib.rs:40-56 | once nothing is queued, no legal run from the start reaches a valid goal |
| CppSearch.MinCostIndex | Cpp/include/Search.hpp:64-66 | the node chosen is a top of the max-heap under `operator<` (cost >), i.e. of least cost, the earliest such |
| CppSearch.Container.constructor | Cpp/include/Search.hpp:104-112 | a new container of the given discipline is empty |
| CppSearch.Container.Next | Cpp/include/Search.hpp:133-141 | the index peek and pop use: last for a stack, first for a queue, a heap top for a priority queue |
| CppSearch.Container.Push | Cpp/include/Search.hpp:113-121 | push appends the node and changes nothing else |
| CppSearch.Container.Pop | Cpp/include/Search.hpp:123-131 | pop removes exactly the node peek returns |
| CppSearch.Container.Peek | Cpp/include/Search.hpp:133-141 | peek returns the most recent node of a stack, the oldest of a queue, a least-cost node of a priority queue |
| CppSearch.Container.Empty | Cpp/include/Search.hpp:143-151 | empty is true iff no node remains |
| CppSearch.StartNode | Cpp/include/Search.hpp:159 | the start node, its own parent with cost, depth and g 0; its use is stated by SeedExplored |
| CppSearch.Child | Cpp/include/Search.hpp:180 | the child node: parent state, f and g of the edge, depth one more than the parent; stated through ExpandKeeps and ExpandChain |
| CppSearch.Expand | Cpp/include/Search.hpp:176-184 | nodeMap and the pushed nodes after the action loop; its properties are ExpandKeeps, ExpandPushed, ExpandChain and ExpandProgress |
| CppSearch.ExpandKeeps | Cpp/include/Search.hpp:176-184 | expansion never overwrites an entry (first discovery wins), enters every successor, and each new entry is the child node built from the expanded node |
| CppSearch.ExpandPushed | Cpp/include/Search.hpp:179-183 | the nodes pushed are exactly the new entries, each pushed once |
| CppSearch.SeedExplored | Cpp/include/Search.hpp:157-161 | after seeding, nodeMap holds only the start node (own parent, cost, depth, g 0), which is the only frontier node, and the loop invariant holds |
| CppSearch.PopInvalidExplored | Cpp/include/Search.hpp:166-171 | skipping a popped invalid state keeps the loop invariant |
| CppSearch.ExpandChain | Cpp/include/Search.hpp:180-181 | expansion keeps the parent chain: every non-start entry's parent is a key one level shallower, entered by an action of a valid non-goal parent with edge costs f and g |
| CppSearch.ExpandExplored | Cpp/include/Search.hpp:166-184 | popping and expanding a valid non-goal node keeps the loop invariant |
| CppSearch.ExpandProgress | Cpp/include/Search.hpp:176-184 | inside a closed universe, expansion enters a new state or pushes nothing, which bounds the loop |
| CppSearch.ExhaustedExplored | Cpp/include/Search.hpp:163-165 | when the container is empty, the discovered states are closed under moves and none is a valid goal |
| CppSearch.ExhaustedUnreachable | Cpp/include/Search.hpp:162-185 | after an empty result, no legal run from the start reaches a valid goal |
| CppSearch.KeysReachable | Cpp/include/Search.hpp:180-181 | every key is reached from the start by a legal run with as many actions as its depth |
| CppSearch.Problem.SetStartState | Cpp/include/Search.hpp:189-191 | sets the start state |
| CppSearch.Problem.Clear | Cpp/include/Search.hpp:87-91 | goalState becomes none and nodeMap empty |
| CppSearch.Problem.BaseSearch | Cpp/include/Search.hpp:156-186 | a returned state is a valid goal in nodeMap and is goalState; no result means nodeMap is closed under moves and holds no valid goal; nodeMap keeps the parent chain with f/g edge costs |
| CppSearch.Problem.Step | Cpp/include/Search.hpp:166-184 | one turn of the loop: stops with a valid goal, or keeps the invariant and decreases the termination measure |
| CppSearch.Problem.ExpandNode | Cpp/include/Search.hpp:176-184 | the action loop leaves nodeMap and the container as the expansion function says |
| CppSearch.Problem.BreadthFirstSearch | Cpp/include/Search.hpp:193-204 | queue, f = g = 0: every node has cost and g 0 |
| CppSearch.Problem.DepthFirstSearch | Cpp/include/Search.hpp:206-217 | stack, f = g = 0: every node has cost and g 0 |
| CppSearch.Problem.UniformCostSearch | Cpp/include/Search.hpp:219-230 | priority queue, f = g = edge cost: every node's cost equals its g |
| CppSearch.Problem.GreedySearch | Cpp/include/Search.hpp:232-243 | priority queue, f = h(child), g = 0 |
| CppSearch.Problem.AStarSearch | Cpp/include/Search.hpp:245-256 | priority queue, f = edge cost + h(child), g = edge cost: cost = g + h for every non-start node |
| LegacySearch.MaxCostIndex | include/Search.hpp:58-60 | the node chosen is a top of the max-heap under `operator<` (cost <), i.e. of greatest cost, the earliest such |
| LegacySearch.MostCostlyFirst | include/Search.hpp:58-60 | with costs [1, 5] on the priority queue, the node of cost 5 is popped first |
| LegacySearch.NextIndex | include/Search.hpp:119-125 | breadth-first takes the queue front, depth-first the stack top, the others a top of the priority queue |
| LegacySearch.Cost | include/Search.hpp:202 | the cost of a child: 0 for breadth- and depth-first (makeNode, line 114), g(parent, action) for uniform-cost (line 202), h(child) for greedy (line 234), h(child) + g(parent, action) for A* (line 266); stated through ExpandChain and the entry points |
| LegacySearch.ChildNode | include/Search.hpp:137 | the child node: parent state, the strategy's cost, depth 0 for makeNode and parent depth + 1 otherwise; stated through ExpandKeeps and ExpandChain |
| LegacySearch.Expand | include/Search.hpp:133-141 | nodeMap and the pushed nodes after the action loop; its properties are ExpandKeeps, ExpandPushed, ExpandChain and ExpandProgress |
| LegacySearch.ExpandKeeps | include/Search.hpp:133-141 | expansion never replaces an entry, enters every successor, and each new entry is the node the strategy builds |
| LegacySearch.ExpandPushed | include/Search.hpp:136-140 | the nodes pushed are exactly the new entries, each pushed once |
| LegacySearch.SeedExplored | include/Search.hpp:113-118 | after seeding, nodeMap holds only the start as its own parent with cost and depth 0, the only frontier node |
| LegacySearch.PopInvalidExplored | include/Search.hpp:126-132 | skipping a popped invalid non-goal state keeps the loop invariant |
| LegacySearch.ExpandChain | include/Search.hpp:198-206 | expansion keeps the ranked parent chain and the depths the strategy records (0 for makeNode, parent depth + 1 otherwise) |
| LegacySearch.ExpandExplored | include/Search.hpp:130-141 | popping and expanding a valid non-goal node keeps the loop invariant |
| LegacySearch.ExpandProgress | include/Search.hpp:133-141 | inside a closed universe, expansion enters a new state or pushes nothing |
| LegacySearch.ExhaustedExplored | include/Search.hpp:119-122 | when the frontier is empty, the discovered states are closed under moves and none is a goal |
| LegacySearch.ExhaustedUnreachable | include/Search.hpp:119-122 | after an empty result, no legal run from the start reaches a goal |
| LegacySearch.KeysReachable | include/Search.hpp:133-141 | every key is reached from the start by a legal run with as many actions as its rank |
| LegacySearch.Problem.constructor | include/Search.hpp:93-104 | a new problem has no goal, empty frontiers and an empty nodeMap |
| LegacySearch.Problem.SetStartState | include/Search.hpp:108-110 | sets the start state |
| LegacySearch.Problem.Clear | include/Search.hpp:81-91 | goalState becomes none; stack, queue, priority queue and nodeMap become empty |
| LegacySearch.Problem.Push | include/Search.hpp:136-140 | pushes onto the frontier field of the strategy; the two frontiers the strategy does not use are unchanged |
| LegacySearch.Problem.Pop | include/Search.hpp:123-124 | front/top then pop: returns the node at NextIndex and removes exactly it; the two unused frontiers are unchanged |
| LegacySearch.Problem.Search | include/Search.hpp:112-143 | a returned state is a goal in nodeMap (valid or not, as the goal test comes first) and is goalState; no result means nodeMap is closed under moves and holds no goal; nodeMap keeps the ranked parent chain; the two frontiers the strategy does not use are empty at the end |
| LegacySearch.Problem.Step | include/Search.hpp:123-141 | one turn of the loop: stops with a goal, or keeps the invariant and decreases the termination measure; the unused frontiers are unchanged |
| LegacySearch.Problem.Seed | include/Search.hpp:113-118 | clear, enter the start and push it: the invariant holds with nodeMap = {start}, and the unused frontiers are empty |
| LegacySearch.Problem.Visit | include/Search.hpp:130-141 | an invalid node is skipped and a valid one expanded; either keeps the invariant and leaves the unused frontiers unchanged |
| LegacySearch.Problem.ExpandNode | include/Search.hpp:133-141 | the action loop leaves nodeMap and the frontier as the expansion function says, and the unused frontiers unchanged |
| LegacySearch.Problem.BreadthFirstSearch | include/Search.hpp:112-143 | queue; every node has cost 0 and depth 0; stack and priority queue stay empty |
| LegacySearch.Problem.DepthFirstSearch | include/Search.hpp:145-176 | stack; every node has cost 0 and depth 0; queue and priority queue stay empty |
| LegacySearch.Problem.UniformCostSearch | include/Search.hpp:178-208 | priority queue; each non-start node costs g(parent, action) of the edge that found it; depth counts links to the start; stack and queue stay empty |
| LegacySearch.Problem.GreedySearch | include/Search.hpp:210-240 | priority queue; every non-start node costs h(child); depth counts links to the start; stack and queue stay empty |
| LegacySearch.Problem.AStarSearch | include/Search.hpp:242-272 | priority queue; each non-start node costs h(child) + g(parent, action) of the edge that found it; depth counts links to the start; stack and queue stay empty |
| RustSearch.MinIndex | Rust/src/lib.rs:99-103 | the reversed Ord makes BinaryHeap pop a node of least cost, least depth among equal costs |
| RustSearch.PushVisited | Rust/src/lib.rs:46-52 | as written, visited stays {start}, only the start is pushed, and something is pushed iff the start has a self-loop |
| RustSearch.DequeSearch | Rust/src/lib.rs:33-57 | as written, the result is the start if it is a valid goal, looping for ever if the start is valid with a self-loop, None otherwise |
| RustSearch.InvertedGuardOutcome | Rust/src/lib.rs:33-57 | the outcome of every search as written: the start iff it is a valid goal; looping for ever iff it is a valid non-goal with a self-loop; never a null dereference |
| RustSearch.Pushed | Rust/src/lib.rs:122-126 | a pushed node holds the state an offered act leads to, the popped depth + 1, and the priority of (state, act) |
| RustSearch.PushVisitedNodes | Rust/src/lib.rs:121-128 | as PushVisited, for heap nodes; the heap only grows, and each node pushed holds a successor of the popped node, its depth + 1 and the priority of (state, act) |
| RustSearch.HeapSearch | Rust/src/lib.rs:85-133 | as DequeSearch, for the three heap searches |
| RustSearch.BreadthFirstSearch | Rust/src/lib.rs:33-57 | push_front with pop_back; outcome as DequeSearch |
| RustSearch.DepthFirstSearch | Rust/src/lib.rs:59-83 | push_front with pop_front; outcome as DequeSearch |
| RustSearch.UniformCostSearch | Rust/src/lib.rs:85-133 | priority g(state, act), through PushVisitedNodes; outcome as HeapSearch |
| RustSearch.GreedySearch | Rust/src/lib.rs:135-183 | priority h of the parent, through PushVisitedNodes; outcome as HeapSearch |
| RustSearch.AStarSearch | Rust/src/lib.rs:185-235 | priority g(state, act) + h of the parent, through PushVisitedNodes; outcome as HeapSearch |
| RustSearch.InvertedGuardMissesGoal | Rust/src/lib.rs:48-51 | on the line 0 -> 1 with goal 1, every search as written returns None although the goal is one legal move away |
| RustSearch.PushUnvisited | Rust/src/lib.rs:46-52 | with the guard negated: every successor is visited afterwards, new states are queued, and each visited state keeps a legal route from the start |
| RustSearch.CorrectedDequeSearch | Rust/src/lib.rs:33-57 | with the guard negated: a result is a valid goal reachable from the start; None means no valid goal is reachable |
| RustSearch.PushUnvisitedNodes | Rust/src/lib.rs:121-128 | as PushUnvisited, for heap nodes; the heap only grows, and each node pushed holds a successor of the popped node, its depth + 1 and the priority of (state, act) |
| RustSearch.CorrectedHeapSearch | Rust/src/lib.rs:85-133 | as CorrectedDequeSearch, for the three heap searches |
| JavaSearch.LeastCostIndex | Java/src/Problem.java:36-38 | compareTo orders by cost, so PriorityQueue.poll yields a least-cost node |
| JavaSearch.NextIndex | Java/src/Problem.java:105-110 | ArrayDeque polls the head, Stack pops the top, PriorityQueue a least-cost node |
| JavaSearch.Problem.constructor | Java/src/Problem.java:16-19 | keeps the initial cost and cost addition; every other field is null |
| JavaSearch.Problem.SetCostFunction | Java/src/Problem.java:51-53 | sets the cost function |
| JavaSearch.Problem.SetHeuristicFunction | Java/src/Problem.java:55-57 | sets the heuristic |
| JavaSearch.Problem.SetStartState | Java/src/Problem.java:59-61 | sets the start state |
| JavaSearch.Problem.SetGoal | Java/src/Problem.java:63-65 | sets the goal test |
| JavaSearch.Problem.Child | Java/src/Problem.java:40-48 | a child exists iff the function fields its kind applies are set, and it holds the next state |
| JavaSearch.Problem.Priced | Java/src/Problem.java:150-157 | a child can be priced: always for breadth- and depth-first; uniform-cost needs the cost function, greedy the heuristic (line 188), A* both (lines 225-228) |
| JavaSearch.Problem.ChildPricing | Java/src/Problem.java:150-157 | a priced child: depth 0 and the initial cost for breadth- and depth-first (Node(next), lines 46-48); otherwise parent depth + 1, and cost g(state, action) for uniform-cost, h(state) for greedy (line 188), costAddition(g, h) for A* (lines 225-228) |
| JavaSearch.Problem.Offered | Java/src/Problem.java:85-90 | an offered child is the Child of the popped node for an action it offers |
| JavaSearch.Problem.InvertedGuardOutcome | Java/src/Problem.java:67-97 | the outcome of every search as written: a found state is the start and a valid goal; a null dereference iff the goal test is null, or the start is a valid non-goal with a self-loop whose child cannot be priced; looping for ever iff it can be priced |
| JavaSearch.Problem.OfferVisited | Java/src/Problem.java:84-93 | as written, visited stays {start}, only the start is offered, and pricing fails iff the start has a self-loop and a needed field is null; otherwise the frontier only grows, by children of the popped node for offered actions, priced as ChildPricing says |
| JavaSearch.Problem.Search | Java/src/Problem.java:67-97 | as written: a null goal test fails, else the start if it is a valid goal, else looping (or failing) on a self-loop of a valid start, else empty |
| JavaSearch.Problem.BreadthFirstSearch | Java/src/Problem.java:67-97 | outcome as Search, children Node(next) |
| JavaSearch.Problem.DepthFirstSearch | Java/src/Problem.java:99-129 | outcome as Search, children Node(next) |
| JavaSearch.Problem.UniformCostSearch | Java/src/Problem.java:131-163 | outcome as Search, children priced by the cost function |
| JavaSearch.Problem.GreedySearch | Java/src/Problem.java:165-197 | outcome as Search, children priced by the parent's heuristic |
| JavaSearch.Problem.AStarSearch | Java/src/Problem.java:199-238 | outcome as Search, children priced by costAddition(cost, parent's heuristic) |
| JavaSearch.Problem.OfferUnvisited | Java/src/Problem.java:84-93 | with the guard negated: every successor is visited afterwards, new states are offered, routes stay legal; failure only on a null field; otherwise the frontier only grows, by children of the popped node for offered actions, priced as ChildPricing says |
| JavaSearch.Problem.CorrectedSearch | Java/src/Problem.java:67-97 | with the guard negated: a result is a valid goal reachable from the start; empty means no valid goal is reachable; a null dereference only on a null field |
| JavaSearch.InvertedGuardMissesGoal | Java/src/Problem.java:87-91 | on the line 0 -> 1 with goal 1, breadth-first search as written returns empty although the goal is one legal move away |
| EightPuzzle.IsGoal | debug.cpp:16-18 | a state is the goal iff it equals the target board |
| EightPuzzle.AdjacencyIsGrid | debug.cpp:21-31 | row i of the table lists exactly the cells sharing a side with cell i of the 3x3 grid |
| EightPuzzle.AdjacencySymmetric | debug.cpp:21-31 | the table is symmetric, its entries are cells 0..8, and no row lists its own cell |
| EightPuzzle.AdjacencyCells | debug.cpp:21-31 | every entry of a row is a cell 0..8 other than the row's own cell |
| EightPuzzle.Actions | debug.cpp:20-38 | actions are offered only when the state has a blank; each is a cell 0..8 other than the blank |
| EightPuzzle.Transfer | debug.cpp:40-50 | keeps the length and the multiset of tiles; with a blank and an action on the board, the action's cell becomes 0 and every cell other than the action and the blank is unchanged |
| EightPuzzle.BlankIndex | debug.cpp:32-36 | the index of the first 0, or the length when there is none |
| EightPuzzle.GetActions | debug.cpp:20-38 | the table row of the first blank, or nothing without a blank; every action is a cell other than the blank |
| EightPuzzle.TransferState | debug.cpp:40-50 | the blank takes the tile at action and action becomes 0; length and multiset of tiles are preserved |
| EightPuzzle.SlidePermutes | debug.cpp:43-45 | the swap of the blank and a tile keeps the multiset of tiles |
| EightPuzzle.SlideBack | debug.cpp:43-45 | on a board, sliding the blank to another cell gives a board whose first blank is that cell, and sliding it back restores the board |
| EightPuzzle.MoveUndo | debug.cpp:20-50 | on a board, an offered move gives a board whose blank sits at the action, and sliding the old blank cell back restores the board |
| EightPuzzle.PuzzleUniverse | debug.cpp:20-50 | the boards of the start's size and tiles hold the start and are closed under moves, so each search terminates |
| EightPuzzle.PrintPath | debug.cpp:68-83 | "cannot access goal" iff there is no goal; otherwise the walk starts at the goal, follows parent links, has as many states as one plus the goal's distance from the start, no two neighbours equal, and ends at the start |
| EightPuzzle.NewEightPuzzle | debug.cpp:64-66 | a fresh problem with the puzzle plug-in for the target and the given start |
| EightPuzzle.PathIsMoves | debug.cpp:74-82 | each step of the walk is an offered move read backwards |
| EightPuzzle.SolveAndPrintPath | debug.cpp:87-102 | a printed path runs from the target back to the start by offered moves; "cannot access goal" only when no legal run reaches the target |

## Left out

- Printing: `printState`, the text of `printPath`, and the output of `main`. `PrintPath` returns the states it would print.
- `main` in `debug.cpp` fixes two boards; `SolveAndPrintPath` takes them as parameters.
- `Cpp/debug.cpp` is a test driver over `EightPuzzle.h` and `GettingZero.h`, which are not part of this model; it is left out.
- `printPath` of both C++ engines (Cpp/include/Search.hpp:258-264, include/Search.hpp:274-280) only prints a message; it is left out as output.
- Rust's `Problem::new` and the `State` trait are the `RustSearch.Problem` datatype; there is nothing to prove about them.
- `HashCombine`: maps and sets are keyed by state equality. Java states are compared by value, not by `equals`/`hashCode` identity.
- Heap layout: a priority queue may return any node of best priority. The model picks the earliest pushed such node.
- Java's `Set<Action>` iteration order is modelled as a sequence. A `Supplier` initial cost is modelled as a fixed value.
- Integer widths: `uint`/`u32` depths and `int` costs are unbounded integers. No wrap-around is modelled. Rust's `C::default()` is 0.
- CppSearch.Problem.BaseSearch, LegacySearch.Problem.Search and the ten C++ entry points: they require a finite `universe` closed under moves that holds the start. The source just loops. With that requirement the loop's termination is proved; an infinite state space is not covered.
- RustSearch.DequeSearch, RustSearch.HeapSearch, JavaSearch.Problem.Search and the corrected searches: each takes a `fuel` step bound. `OutOfFuel` stands for a loop that has not ended.
- The five loops of each of the earlier C++, Rust and Java engines are one method parameterised by the strategy. The entry points pass their configuration to it.
- Optimality of uniform-cost and A* search is not stated. The source stores edge costs, not accumulated path costs.
- `EightPuzzle.Actions` and `EightPuzzle.Transfer`: on a board with more than nine cells, or an action outside the board, the source has undefined behaviour. The model returns no actions, or leaves the board unchanged.
- Plug-in defaults: the eight puzzle keeps `isValid` true and `g = h = 0`.
- Java: a goal test returning a null `Boolean` is not modelled. `assert startState != null` becomes a precondition.
- `Container::peek` and `empty` for other template characters are left out. Those cases fall off the end of the function.

## Findings

| source | as written | input that shows it | evidently intended | confidence | as-written member | corrected member |
|---|---|---|---|---|---|---|
| Rust/src/lib.rs:48 | every search pushes a successor only if `visited.contains(&next)`, so only the start is ever pushed (same at lines 74, 123, 173, 224) | start 0, one action to 1, goal 1: every search returns None | push when `!visited.contains(&next)` | high, not executed | RustSearch.InvertedGuardMissesGoal | RustSearch.CorrectedDequeSearch |
| Java/src/Problem.java:87 | every search offers a child only if `visited.contains(nextState)` (same at lines 119, 152, 186, 222) | start 0, one action to 1, goal 1: breadthFirstSearch returns empty | offer when `!visited.contains(nextState)` | high, not executed | JavaSearch.InvertedGuardMissesGoal | JavaSearch.Problem.CorrectedSearch |
| include/Search.hpp:58-60 | `operator<` is `cost < node.cost`, so `std::priority_queue::top` is a most costly node and uniform-cost, greedy and A* expand the worst node first | a priority queue holding costs 1 and 5 pops cost 5 | `cost > node.cost`, as in Cpp/include/Search.hpp:64-66, so the least costly node is popped | medium, not executed | LegacySearch.MostCostlyFirst | CppSearch.MinCostIndex |
