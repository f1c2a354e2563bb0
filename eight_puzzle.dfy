/** The eight-puzzle plug-in of the earlier engine: a board is the sequence
    of tiles read row by row with 0 for the blank, an action is the index of
    the tile that slides into the blank, and the goal is a fixed target
    board.  The validity test, g and h keep their defaults. */
module EightPuzzle {
  import opened Common
  import LegacySearch

  type State = seq<int>
  type Action = int

  /** isGoal: the board is the target. */
  predicate IsGoal(target: State, s: State)
  {
    s == target
  }

  /** The table of getActions: row i lists the cells next to cell i of the
      3x3 grid. */
  const Adjacency: seq<seq<int>> :=
    [[1, 3], [0, 2, 4], [1, 5], [0, 4, 6], [1, 3, 5, 7], [2, 4, 8], [3, 7], [4, 6, 8], [7, 5]]

  function Abs(x: int): nat
  {
    if x < 0 then -x else x
  }

  /** Cells i and j of the 3x3 grid share a side. */
  predicate GridNeighbours(i: int, j: int)
  {
    0 <= i < 9 && 0 <= j < 9 && Abs(i / 3 - j / 3) + Abs(i % 3 - j % 3) == 1
  }

  /** Row i of the table lists exactly the grid neighbours of cell i. */
  lemma AdjacencyIsGrid(i: int, j: int)
    requires 0 <= i < 9
    ensures j in Adjacency[i] <==> GridNeighbours(i, j)
  {
    if 0 <= j < 9 {
      assert j == 0 || j == 1 || j == 2 || j == 3 || j == 4 || j == 5 || j == 6 || j == 7 || j == 8;
      if i == 0 { assert Adjacency[i] == [1, 3]; }
      else if i == 1 { assert Adjacency[i] == [0, 2, 4]; }
      else if i == 2 { assert Adjacency[i] == [1, 5]; }
      else if i == 3 { assert Adjacency[i] == [0, 4, 6]; }
      else if i == 4 { assert Adjacency[i] == [1, 3, 5, 7]; }
      else if i == 5 { assert Adjacency[i] == [2, 4, 8]; }
      else if i == 6 { assert Adjacency[i] == [3, 7]; }
      else if i == 7 { assert Adjacency[i] == [4, 6, 8]; }
      else { assert Adjacency[i] == [7, 5]; }
    }
  }

  /** The table is symmetric, and no cell is listed as its own neighbour. */
  lemma AdjacencySymmetric(i: int, j: int)
    requires 0 <= i < 9
    ensures j in Adjacency[i] ==> 0 <= j < 9 && j != i && i in Adjacency[j]
  {
    AdjacencyIsGrid(i, j);
    if j in Adjacency[i] {
      AdjacencyIsGrid(j, i);
    }
  }

  /** The index of the first blank of s, or |s| when s has none. */
  function BlankIndex(s: State): (i: nat)
    ensures i <= |s|
    ensures i < |s| ==> s[i] == 0
    ensures forall j :: 0 <= j < i ==> s[j] != 0
    decreases |s|
  {
    if s == [] then 0
    else if s[0] == 0 then 0
    else 1 + BlankIndex(s[1..])
  }

  /** Every row of the table lists cells of the grid other than its own. */
  lemma AdjacencyCells(i: int)
    requires 0 <= i < 9
    ensures forall a :: a in Adjacency[i] ==> 0 <= a < 9 && a != i
  {
    forall a | a in Adjacency[i]
      ensures 0 <= a < 9 && a != i
    {
      AdjacencySymmetric(i, a);
    }
  }

  /** The actions getActions offers: the table row of the first blank, or
      none when the board has no blank.  Every action is a cell of the grid
      other than the blank. */
  function Actions(s: State): (r: seq<Action>)
    ensures r != [] ==> BlankIndex(s) < |s|
    ensures forall a :: a in r ==> 0 <= a < 9 && a != BlankIndex(s)
  {
    var b := BlankIndex(s);
    if b < |s| && b < |Adjacency| then AdjacencyCells(b); Adjacency[b] else []
  }

  /** transferState: the tile at cell action moves into the first blank and
      cell action becomes the blank.  A board without a blank, or an action
      outside the board, leaves the board as it is.  A move keeps the
      board's size and tiles. */
  function Transfer(s: State, action: Action): (t: State)
    ensures |t| == |s| && multiset(t) == multiset(s)
    ensures BlankIndex(s) < |s| && 0 <= action < |s| ==>
      t[action] == 0 && forall j :: 0 <= j < |s| && j != action && j != BlankIndex(s) ==> t[j] == s[j]
  {
    var b := BlankIndex(s);
    if b < |s| && 0 <= action < |s| then SlidePermutes(s, b, action); s[b := s[action]][action := 0] else s
  }

  /** The eight puzzle as a plug-in: every board is valid, g and h are 0. */
  function Puzzle(target: State): Plugin<State, Action>
  {
    Plugin(Transitions(Actions, Transfer, (s: State) => true), (s: State) => IsGoal(target, s),
           (s: State, a: Action) => 0, (s: State) => 0)
  }

  /** getActions: scan for the blank and return its table row. */
  method GetActions(s: State) returns (r: seq<Action>)
    ensures r == Actions(s)
    ensures forall a :: a in r ==> 0 <= a < 9 && a != BlankIndex(s)
  {
    for i := 0 to |s|
      invariant forall j :: 0 <= j < i ==> s[j] != 0
    {
      if s[i] == 0 {
        assert BlankIndex(s) == i;
        if i < |Adjacency| {
          return Adjacency[i];
        }
        return [];
      }
    }
    return [];
  }

  /** transferState: copy the board, find the first blank, slide the tile
      at cell action into it and blank cell action. */
  method TransferState(s: State, action: Action) returns (r: State)
    ensures r == Transfer(s, action)
    ensures |r| == |s|
    ensures multiset(r) == multiset(s)
  {
    r := s;
    for i := 0 to |r|
      invariant r == s
      invariant forall j :: 0 <= j < i ==> s[j] != 0
    {
      if r[i] == 0 {
        assert BlankIndex(s) == i;
        if 0 <= action < |r| {
          r := r[i := r[action]];
          r := r[action := 0];
          SlidePermutes(s, i, action);
        }
        return;
      }
    }
  }

  /** Sliding the tile at cell a into the blank at cell b rearranges the
      board without changing its tiles. */
  lemma SlidePermutes(s: State, b: nat, a: nat)
    requires b < |s| && a < |s| && s[b] == 0
    ensures multiset(s[b := s[a]][a := 0]) == multiset(s)
  {
    var t := s[b := s[a]];
    assert multiset(t) == multiset(s) - multiset{0} + multiset{s[a]};
    assert t[a] == s[a];
  }

  /** A board of the puzzle: nine cells holding exactly one blank. */
  ghost predicate Board(s: State)
  {
    && |s| == 9
    && (exists i :: 0 <= i < 9 && s[i] == 0)
    && forall i, j :: 0 <= i < 9 && 0 <= j < 9 && s[i] == 0 && s[j] == 0 ==> i == j
  }

  /** Sliding the tile at cell a into the only blank, at cell b, of a
      board gives a board whose only blank is at a, and sliding back
      restores the board. */
  lemma SlideBack(s: State, b: nat, a: nat)
    requires Board(s) && b < 9 && s[b] == 0 && a < 9 && a != b
    ensures var t := s[b := s[a]][a := 0];
      && Board(t) && t[a] == 0
      && (forall j :: 0 <= j < a ==> t[j] != 0)
      && t[a := t[b]][b := 0] == s
  {
    var t := s[b := s[a]][a := 0];
    assert t[a] == 0;
    forall j | 0 <= j < 9 && j != a
      ensures t[j] != 0
    {
      if j != b {
        assert t[j] == s[j];
      }
    }
  }

  /** On a board, every offered move leads to a board whose blank sits where
      the moved tile was, and sliding that tile back undoes the move. */
  lemma MoveUndo(s: State, action: Action)
    requires Board(s) && action in Actions(s)
    ensures var t := Transfer(s, action);
      && Board(t)
      && BlankIndex(t) == action
      && BlankIndex(s) in Actions(t)
      && Transfer(t, BlankIndex(s)) == s
  {
    var b := BlankIndex(s);
    var i :| 0 <= i < 9 && s[i] == 0;
    assert b == i;
    AdjacencySymmetric(b, action);
    SlideBack(s, b, action);
    var t := s[b := s[action]][action := 0];
    assert Transfer(s, action) == t;
    assert BlankIndex(t) == action;
    assert Transfer(t, b) == t[action := t[b]][b := 0];
  }

  /** The tiles that occur on s. */
  ghost function Tiles(s: State): set<int>
  {
    set x | x in s
  }

  /** All sequences of length n whose elements are drawn from tiles. */
  ghost function Boards(tiles: set<int>, n: nat): set<State>
    decreases n
  {
    if n == 0 then {[]}
    else set x, rest | x in tiles && rest in Boards(tiles, n - 1) :: [x] + rest
  }

  lemma {:induction false} InBoards(tiles: set<int>, s: State)
    requires forall j :: 0 <= j < |s| ==> s[j] in tiles
    ensures s in Boards(tiles, |s|)
    decreases |s|
  {
    if s != [] {
      InBoards(tiles, s[1..]);
      var x, rest := s[0], s[1..];
      assert x in tiles && rest in Boards(tiles, |s| - 1);
      assert [x] + rest in Boards(tiles, |s|);
      assert s == [x] + rest;
    }
  }

  lemma {:induction false} BoardsShape(tiles: set<int>, n: nat, s: State)
    requires s in Boards(tiles, n)
    ensures |s| == n && forall j :: 0 <= j < n ==> s[j] in tiles
    decreases n
  {
    if n > 0 {
      var x, rest :| x in tiles && rest in Boards(tiles, n - 1) && s == [x] + rest;
      BoardsShape(tiles, n - 1, rest);
    }
  }

  /** The boards of start's size made of start's tiles: a finite set that
      holds start and every board a move reaches from one of its members, so
      each search of the earlier engine terminates on the puzzle. */
  lemma {:induction false} PuzzleUniverse(target: State, start: State)
    ensures start in Boards(Tiles(start), |start|)
    ensures Closed(Puzzle(target).moves, Boards(Tiles(start), |start|))
  {
    var tiles := Tiles(start);
    forall j | 0 <= j < |start|
      ensures start[j] in tiles
    {
    }
    InBoards(tiles, start);
    forall s, a | s in Boards(tiles, |start|) && a in Actions(s)
      ensures Transfer(s, a) in Boards(tiles, |start|)
    {
      BoardsShape(tiles, |start|, s);
      var t := Transfer(s, a);
      forall j | 0 <= j < |t|
        ensures t[j] in tiles
      {
        assert t[j] in multiset(t);
        assert t[j] in multiset(s);
        var k :| 0 <= k < |s| && s[k] == t[j];
      }
      InBoards(tiles, t);
    }
  }

  /** The state printPath starts from and what it prints: nothing when no
      goal was found, otherwise the goal and each parent in turn, ending with
      the first state that is its own parent. */
  datatype Printed = CannotAccessGoal | Path(states: seq<State>)

  /** path climbs the parent links of m: each state but the last is a key
      whose parent, a different state, comes next. */
  ghost predicate ParentWalk(m: map<State, LegacySearch.Node<State>>, path: seq<State>)
  {
    forall j :: 0 <= j < |path| - 1 ==> path[j] in m && path[j + 1] == m[path[j]].parent && path[j + 1] != path[j]
  }

  /** One more parent link extends a walk. */
  lemma ParentWalkSnoc(m: map<State, LegacySearch.Node<State>>, path: seq<State>, next: State)
    requires ParentWalk(m, path) && path != [] && path[|path| - 1] in m
    requires next == m[path[|path| - 1]].parent && next != path[|path| - 1]
    ensures ParentWalk(m, path + [next])
  {
  }

  /** printPath over the node map the last search left: follow parents from
      the goal until a state is its own parent. */
  method PrintPath(problem: LegacySearch.Problem<State, Action>) returns (r: Printed)
    requires problem.goalState.Some? ==>
      && LegacySearch.ParentChain(problem.nodeMap, problem.rank, problem.startState)
      && problem.goalState.value in problem.nodeMap
    ensures r.CannotAccessGoal? <==> problem.goalState.None?
    ensures r.Path? ==>
      var path := r.states;
      var goal := problem.goalState.value;
      && |path| == problem.rank[goal] + 1
      && path[0] == goal
      && path[|path| - 1] == problem.startState
      && (forall j :: 0 <= j < |path| - 1 ==> path[j] in problem.nodeMap && path[j + 1] == problem.nodeMap[path[j]].parent)
      && forall j :: 0 <= j < |path| - 1 ==> path[j + 1] != path[j]
  {
    if problem.goalState.None? {
      return CannotAccessGoal;
    }
    var goal, m, rank, start := problem.goalState.value, problem.nodeMap, problem.rank, problem.startState;
    var state := goal;
    var path := [state];
    while true
      invariant state in m
      invariant |path| + rank[state] == rank[goal] + 1
      invariant path[0] == goal && path[|path| - 1] == state
      invariant ParentWalk(m, path)
      decreases rank[state]
    {
      var parent := m[state].parent;
      if parent == state {
        assert state == start;
        return Path(path);
      }
      ParentWalkSnoc(m, path, parent);
      state := parent;
      path := path + [state];
    }
  }

  /** The eight puzzle of debug.cpp over the earlier engine: the plug-in
      for target, started from start. */
  method NewEightPuzzle(start: State, target: State) returns (problem: LegacySearch.Problem<State, Action>)
    ensures fresh(problem)
    ensures problem.plugin == Puzzle(target) && problem.startState == start
    ensures problem.goalState == None && problem.nodeMap == map[]
  {
    problem := new LegacySearch.Problem(Puzzle(target), start);
  }

  /** Board t is reached from board s by one offered move. */
  ghost predicate Moves(s: State, t: State)
  {
    exists a :: a in Actions(s) && Transfer(s, a) == t
  }

  /** A walk up the parent links of a node map left by a search of the
      earlier engine, stopping at the first self-parented state, is a
      sequence of moves read backwards. */
  lemma PathIsMoves(strategy: LegacySearch.Strategy, target: State, m: map<State, LegacySearch.Node<State>>,
                    rank: map<State, nat>, start: State, path: seq<State>)
    requires LegacySearch.ParentChain(m, rank, start)
    requires forall k :: k in m && k != start ==> LegacySearch.Expanded(strategy, Puzzle(target), m[k])
    requires forall j :: 0 <= j < |path| - 1 ==> path[j] in m && path[j + 1] == m[path[j]].parent
    requires forall j :: 0 <= j < |path| - 1 ==> path[j + 1] != path[j]
    ensures forall j :: 0 <= j < |path| - 1 ==> Moves(path[j + 1], path[j])
  {
    forall j | 0 <= j < |path| - 1
      ensures Moves(path[j + 1], path[j])
    {
      assert m[start].parent == start && m[path[j]].parent == path[j + 1];
      assert path[j] != start;
      assert LegacySearch.Expanded(strategy, Puzzle(target), m[path[j]]);
    }
  }

  /** The driver of debug.cpp: build the puzzle, run A*, print the path.
      A printed path runs from the target back to the start, each board
      reached from the next one by an offered move; "cannot access goal"
      is printed only when no sequence of moves leads from start to
      target. */
  method SolveAndPrintPath(start: State, target: State) returns (r: Printed)
    ensures r.Path? ==> var path := r.states;
      && path != [] && path[0] == target && path[|path| - 1] == start
      && forall j :: 0 <= j < |path| - 1 ==> Moves(path[j + 1], path[j])
    ensures r.CannotAccessGoal? ==>
      forall acts :: Legal(Puzzle(target).moves, start, acts) ==> Follow(Puzzle(target).moves, start, acts) != target
  {
    var problem := NewEightPuzzle(start, target);
    PuzzleUniverse(target, start);
    var found := problem.AStarSearch(Boards(Tiles(start), |start|));
    r := PrintPath(problem);
    if r.Path? {
      PathIsMoves(LegacySearch.AStar, target, problem.nodeMap, problem.rank, start, r.states);
    } else {
      forall acts | Legal(Puzzle(target).moves, start, acts)
        ensures Follow(Puzzle(target).moves, start, acts) != target
      {
        LegacySearch.ExhaustedUnreachable(problem.plugin, problem.nodeMap, start, acts);
      }
    }
  }
}
