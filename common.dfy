/** Vocabulary shared by the four search engines: optional results, the
    plug-in interface a problem supplies, the outcome of a search bounded by
    fuel, and reachability in a problem's state space. */
module Common {

  /** std::optional, Rust's Option, Java's Optional. */
  datatype Option<T> = None | Some(value: T)

  /** Result of a search whose loop is bounded by fuel: a state returned by
      the source, the source's "no state" after the frontier emptied, the
      fuel ran out while the source would still be looping, or the source
      called a function field that was never set (Java's
      NullPointerException). */
  datatype Outcome<S> = Found(state: S) | Exhausted | OutOfFuel | NullDereference

  /** A frontier node of the Rust and Java engines: the state, its depth and
      its cost. */
  datatype Entry<S> = Entry(state: S, depth: nat, cost: int)

  /** How a problem's state space is traversed: the actions a state offers,
      the state an action leads to, and whether a state is valid.  This is
      Rust's State trait, Java's State interface and the getActions,
      transferState and isValid members of the C++ Problem. */
  datatype Transitions<!S, !A> = Transitions(
    actions: S -> seq<A>,
    transfer: (S, A) -> S,
    isValid: S -> bool)

  /** The overridable members of the C++ Problem class: the transitions, the
      goal test, the edge cost g (default 0) and the heuristic h (default 0). */
  datatype Plugin<!S, !A> = Plugin(
    moves: Transitions<S, A>,
    isGoal: S -> bool,
    g: (S, A) -> int,
    h: S -> int)

  /** s without its element at index i. */
  function Remove<T>(s: seq<T>, i: nat): (r: seq<T>)
    requires i < |s|
    ensures |r| == |s| - 1
    ensures forall j :: 0 <= j < i ==> r[j] == s[j]
    ensures forall j :: i <= j < |r| ==> r[j] == s[j + 1]
  {
    s[..i] + s[i + 1..]
  }

  /** The state reached from s by taking the actions acts in order. */
  function Follow<S, A>(t: Transitions<S, A>, s: S, acts: seq<A>): S
    decreases |acts|
  {
    if acts == [] then s else Follow(t, t.transfer(s, acts[0]), acts[1..])
  }

  /** acts can be taken from s one after the other: every action is offered
      by the state it is taken from, and that state is valid. */
  ghost predicate Legal<S, A>(t: Transitions<S, A>, s: S, acts: seq<A>)
    decreases |acts|
  {
    acts == [] ||
    (t.isValid(s) && acts[0] in t.actions(s) && Legal(t, t.transfer(s, acts[0]), acts[1..]))
  }

  /** Every valid state of states has all its successors in states. */
  ghost predicate Closed<S, A>(t: Transitions<S, A>, states: set<S>)
  {
    forall s, a :: s in states && t.isValid(s) && a in t.actions(s) ==> t.transfer(s, a) in states
  }

  /** A set closed under the moves of valid states holds every state that a
      legal run from one of its members reaches. */
  lemma {:induction false} ClosedHoldsRuns<S, A>(t: Transitions<S, A>, states: set<S>, s: S, acts: seq<A>)
    requires Closed(t, states) && s in states && Legal(t, s, acts)
    ensures Follow(t, s, acts) in states
    decreases |acts|
  {
    if acts != [] {
      ClosedHoldsRuns(t, states, t.transfer(s, acts[0]), acts[1..]);
    }
  }

  /** Taking one more action after a legal run: the run extended by action
      reaches the successor of where the run ended, and is legal exactly when
      that end is valid and offers action. */
  lemma {:induction false} FollowSnoc<S, A>(t: Transitions<S, A>, s: S, acts: seq<A>, action: A)
    ensures Follow(t, s, acts + [action]) == t.transfer(Follow(t, s, acts), action)
    ensures Legal(t, s, acts + [action]) <==>
            Legal(t, s, acts) && t.isValid(Follow(t, s, acts)) && action in t.actions(Follow(t, s, acts))
    decreases |acts|
  {
    if acts == [] {
      assert [action][1..] == [];
    } else {
      assert (acts + [action])[1..] == acts[1..] + [action];
      FollowSnoc(t, t.transfer(s, acts[0]), acts[1..], action);
    }
  }

  /** A popped state s is settled once the search is done with it: s is
      not a valid goal, and if s is valid all its successors are visited. */
  ghost predicate Settled<S, A>(t: Transitions<S, A>, goal: S -> bool, visited: set<S>, s: S)
  {
    && !(goal(s) && t.isValid(s))
    && (t.isValid(s) ==> forall a :: a in t.actions(s) ==> t.transfer(s, a) in visited)
  }

  /** The bookkeeping of a search that marks a state visited when it first
      pushes it: the start is visited, every visited state is still queued
      or was popped and settled, and queued and popped states are visited. */
  ghost predicate Covered<S, A>(t: Transitions<S, A>, goal: S -> bool, start: S, visited: set<S>,
                                queued: set<S>, closed: set<S>)
  {
    && start in visited && queued <= visited && closed <= visited
    && (forall s :: s in visited ==> s in queued || s in closed)
    && (forall s :: s in closed ==> Settled(t, goal, visited, s))
  }

  /** Every visited state is reached from start by a legal run: the run
      recorded for it. */
  ghost predicate Routed<S, A>(t: Transitions<S, A>, start: S, routes: map<S, seq<A>>)
  {
    forall s :: s in routes ==> Legal(t, start, routes[s]) && Follow(t, start, routes[s]) == s
  }

  /** Popping s and settling it keeps the bookkeeping, whatever was pushed
      meanwhile: the states newly visited are queued, and, when s is valid,
      all its successors are visited. */
  lemma SettleKeepsCovered<S, A>(t: Transitions<S, A>, goal: S -> bool, start: S, visited0: set<S>,
                                 queued0: set<S>, closed: set<S>, s: S, visited: set<S>, queued: set<S>)
    requires Covered(t, goal, start, visited0, queued0, closed)
    requires s in queued0 && !(goal(s) && t.isValid(s))
    requires visited0 <= visited && queued <= visited && queued0 - {s} <= queued
    requires forall x :: x in visited && x !in visited0 ==> x in queued
    requires t.isValid(s) ==> forall a :: a in t.actions(s) ==> t.transfer(s, a) in visited
    ensures Covered(t, goal, start, visited, queued, closed + {s})
  {
    forall x | x in closed + {s}
      ensures Settled(t, goal, visited, x)
    {
      if x != s {
        assert Settled(t, goal, visited0, x);
      }
    }
  }

  /** Once nothing is queued, the visited states are closed under the moves
      of their valid members, so no legal run from the start reaches a valid
      goal. */
  lemma {:induction false} CoveredExhausted<S, A>(t: Transitions<S, A>, goal: S -> bool, start: S,
                                                  visited: set<S>, closed: set<S>, acts: seq<A>)
    requires Covered(t, goal, start, visited, {}, closed)
    requires Legal(t, start, acts)
    ensures !(goal(Follow(t, start, acts)) && t.isValid(Follow(t, start, acts)))
  {
    forall s, a | s in visited && t.isValid(s) && a in t.actions(s)
      ensures t.transfer(s, a) in visited
    {
      assert Settled(t, goal, visited, s);
    }
    ClosedHoldsRuns(t, visited, start, acts);
    assert Settled(t, goal, visited, Follow(t, start, acts));
  }

  /** s offers an action leading back to s. */
  ghost predicate SelfLoop<S, A>(t: Transitions<S, A>, s: S)
  {
    exists a :: a in t.actions(s) && t.transfer(s, a) == s
  }

  /** The states of the entries of a frontier. */
  ghost function StatesOf<S>(q: seq<Entry<S>>): set<S>
  {
    set n | n in q :: n.state
  }

  /** Appending an entry adds exactly its state. */
  lemma AppendStates<S>(q: seq<Entry<S>>, e: Entry<S>)
    ensures StatesOf(q + [e]) == StatesOf(q) + {e.state}
  {
    assert e in q + [e];
  }

  /** Taking out the entry at index i loses at most its state. */
  lemma PopStates<S>(q: seq<Entry<S>>, i: nat)
    requires i < |q|
    ensures StatesOf(q) - {q[i].state} <= StatesOf(q[..i] + q[i + 1..])
  {
    forall x | x in StatesOf(q) - {q[i].state}
      ensures x in StatesOf(q[..i] + q[i + 1..])
    {
      var n :| n in q && n.state == x;
      var j :| 0 <= j < |q| && q[j] == n;
      if j < i {
        assert (q[..i] + q[i + 1..])[j] == n;
      } else {
        assert (q[..i] + q[i + 1..])[j - 1] == n;
      }
    }
  }
}
