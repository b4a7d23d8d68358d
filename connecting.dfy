/**
 * The pending queue of a connecting stage (`ConnectingPrivate`): every
 * (start state, end state) pair still to be tried, ordered by the sum of
 * the two states' priorities so that the cheapest pair is tried first.
 */
module Connecting {
  import opened Wrappers
  import Ordered
  import opened Stages

  /** A start-side state and an end-side state, to be connected. */
  datatype StatePair = StatePair(first: InterfaceState, second: InterfaceState)

  function CombinedPriority(p: StatePair): int {
    p.first.priority + p.second.priority
  }

  /** `StatePairLess`: compares pairs by the sum of their states' priorities. */
  predicate StatePairLess(x: StatePair, y: StatePair) {
    CombinedPriority(x) < CombinedPriority(y)
  }

  /** x goes before y exactly when its combined priority is lower. */
  lemma StatePairLessIsCombinedPriorityOrder(x: StatePair, y: StatePair)
    ensures StatePairLess(x, y) <==> CombinedPriority(x) < CombinedPriority(y)
    ensures !StatePairLess(x, y) && !StatePairLess(y, x) <==> CombinedPriority(x) == CombinedPriority(y)
  {
  }

  /** `StatePairLess` is a strict weak order, as `ordered<>` requires of its comparator. */
  lemma StatePairLessIsStrictWeakOrder()
    ensures Ordered.StrictWeakOrder(StatePairLess)
  {
  }

  /** Combined priorities never decrease along the queue. */
  predicate ByCombinedPriority(q: seq<StatePair>) {
    forall i, j :: 0 <= i < j < |q| ==> CombinedPriority(q[i]) <= CombinedPriority(q[j])
  }

  /** Being sorted by `StatePairLess` is being ordered by combined priority. */
  lemma SortedIsByCombinedPriority(q: seq<StatePair>)
    ensures Ordered.Sorted(q, StatePairLess) <==> ByCombinedPriority(q)
  {
  }

  /**
   * The pair made from a new state and a state on the other side: the
   * start-side state comes first, whichever side the new one arrived on.
   * `arrivedAt` names the side of the new state, the opposite of the
   * library's template parameter `other`: `arrivedAt == Forward` is
   * `make_pair<BACKWARD>`, `arrivedAt == Backward` is `make_pair<FORWARD>`.
   */
  function MakePair(arrivedAt: Direction, state: InterfaceState, other: InterfaceState): (p: StatePair)
    ensures arrivedAt == Forward ==> p.first == state && p.second == other
    ensures arrivedAt == Backward ==> p.first == other && p.second == state
    ensures CombinedPriority(p) == state.priority + other.priority
  {
    if arrivedAt == Forward then StatePair(state, other) else StatePair(other, state)
  }

  /** The pairs a new state forms with the states on the other side, one per state there, in their order. */
  function PairsWith(arrivedAt: Direction, state: InterfaceState, others: seq<InterfaceState>): (ps: seq<StatePair>)
    ensures |ps| == |others|
  {
    if others == [] then []
    else [MakePair(arrivedAt, state, others[0])] + PairsWith(arrivedAt, state, others[1..])
  }

  /**
   * Every pair a new state forms holds that state and one state of the other
   * side, and its key is the sum of the two priorities.
   */
  lemma {:induction false} PairsWithAt(arrivedAt: Direction, state: InterfaceState, others: seq<InterfaceState>, i: nat)
    requires i < |others|
    ensures PairsWith(arrivedAt, state, others)[i] == MakePair(arrivedAt, state, others[i])
    ensures CombinedPriority(PairsWith(arrivedAt, state, others)[i]) == state.priority + others[i].priority
  {
    if i > 0 {
      PairsWithAt(arrivedAt, state, others[1..], i - 1);
    }
  }

  /** Pairing with one more state on the other side adds that one pair at the end. */
  lemma {:induction false} PairsWithAppend(arrivedAt: Direction, state: InterfaceState, others: seq<InterfaceState>, other: InterfaceState)
    ensures PairsWith(arrivedAt, state, others + [other]) == PairsWith(arrivedAt, state, others) + [MakePair(arrivedAt, state, other)]
    decreases others
  {
    if others != [] {
      assert (others + [other])[1..] == others[1..] + [other];
      PairsWithAppend(arrivedAt, state, others[1..], other);
    } else {
      assert (others + [other])[1..] == [];
    }
  }

  /**
   * Every (start, end) pair of the two sides, as often as the two states
   * occur there: the pairs a connecting stage has to try.
   */
  function AllPairs(starts: seq<InterfaceState>, ends: seq<InterfaceState>): multiset<StatePair>
    decreases |starts|
  {
    if starts == [] then multiset{}
    else AllPairs(starts[..|starts| - 1], ends) + multiset(PairsWith(Forward, starts[|starts| - 1], ends))
  }

  /** A new start state adds its pairs with every end state. */
  lemma AllPairsAddStart(starts: seq<InterfaceState>, ends: seq<InterfaceState>, state: InterfaceState)
    ensures AllPairs(starts + [state], ends) == AllPairs(starts, ends) + multiset(PairsWith(Forward, state, ends))
  {
    assert (starts + [state])[..|starts|] == starts;
  }

  /** A new end state adds its pairs with every start state. */
  lemma {:induction false} AllPairsAddEnd(starts: seq<InterfaceState>, ends: seq<InterfaceState>, state: InterfaceState)
    ensures AllPairs(starts, ends + [state]) == AllPairs(starts, ends) + multiset(PairsWith(Backward, state, starts))
    decreases |starts|
  {
    if starts != [] {
      var n := |starts| - 1;
      assert starts == starts[..n] + [starts[n]];
      AllPairsAddEnd(starts[..n], ends, state);
      PairsWithAppend(Forward, starts[n], ends, state);
      PairsWithAppend(Backward, state, starts[..n], starts[n]);
    }
  }

  /** How often a start state paired with an end state occurs among the pairs a new start state forms. */
  lemma {:induction false} PairsWithCount(start: InterfaceState, ends: seq<InterfaceState>, s: InterfaceState, e: InterfaceState)
    ensures multiset(PairsWith(Forward, start, ends))[StatePair(s, e)] == if start == s then multiset(ends)[e] else 0
    decreases ends
  {
    if ends != [] {
      assert ends == [ends[0]] + ends[1..];
      PairsWithCount(start, ends[1..], s, e);
    }
  }

  lemma CountStep(a: nat, b: nat, one: bool)
    ensures (a + if one then 1 else 0) * b == a * b + if one then b else 0
  {
  }

  lemma FactorsOfPositiveProduct(a: nat, b: nat)
    requires a * b > 0
    ensures a > 0 && b > 0
  {
  }

  /**
   * The pair (s, e) occurs in `AllPairs` exactly (occurrences of s among the
   * starts) times (occurrences of e among the ends): once for every start
   * and end state that each arrived once, never for two states of one side.
   */
  lemma {:induction false} AllPairsCount(starts: seq<InterfaceState>, ends: seq<InterfaceState>, s: InterfaceState, e: InterfaceState)
    ensures AllPairs(starts, ends)[StatePair(s, e)] == multiset(starts)[s] * multiset(ends)[e]
    decreases |starts|
  {
    if starts != [] {
      var n := |starts| - 1;
      var init, last := starts[..n], starts[n];
      assert starts == init + [last];
      assert multiset(starts)[s] == multiset(init)[s] + if last == s then 1 else 0;
      AllPairsCount(init, ends, s, e);
      PairsWithCount(last, ends, s, e);
      assert AllPairs(starts, ends)[StatePair(s, e)]
          == AllPairs(init, ends)[StatePair(s, e)] + if last == s then multiset(ends)[e] else 0;
      CountStep(multiset(init)[s], multiset(ends)[e], last == s);
    }
  }

  /**
   * The connecting stage's invariant: the queue is ordered, and every
   * (start, end) pair of the two sides is either still pending or already
   * taken, and nothing else is.
   */
  ghost predicate Accounted(pending: seq<StatePair>, taken: multiset<StatePair>,
                            starts: seq<InterfaceState>, ends: seq<InterfaceState>)
  {
    && ByCombinedPriority(pending)
    && multiset(pending) + taken == AllPairs(starts, ends)
  }

  /**
   * When a state arrives on one side and its pairs with the other side are
   * queued in order, the invariant holds for the grown sides.
   */
  lemma ArrivalKeepsAccount(starts: seq<InterfaceState>, ends: seq<InterfaceState>, queued: seq<StatePair>,
                            starts': seq<InterfaceState>, ends': seq<InterfaceState>, pending: seq<StatePair>,
                            taken: multiset<StatePair>, arrivedAt: Direction, state: InterfaceState, others: seq<InterfaceState>)
    requires Accounted(queued, taken, starts, ends)
    requires others == if arrivedAt == Forward then ends else starts
    requires arrivedAt == Forward ==> starts' == starts + [state] && ends' == ends
    requires arrivedAt == Backward ==> starts' == starts && ends' == ends + [state]
    requires ByCombinedPriority(pending)
    requires multiset(pending) == multiset(queued) + multiset(PairsWith(arrivedAt, state, others))
    ensures Accounted(pending, taken, starts', ends')
  {
    if arrivedAt == Forward {
      AllPairsAddStart(starts, ends, state);
    } else {
      AllPairsAddEnd(starts, ends, state);
    }
  }

  /** Queuing any pairs keeps the queue ordered by combined priority. */
  lemma InsertAllKeepsOrder(q: seq<StatePair>, ps: seq<StatePair>)
    requires ByCombinedPriority(q)
    ensures ByCombinedPriority(Ordered.InsertAll(q, ps, StatePairLess))
  {
    StatePairLessIsStrictWeakOrder();
    SortedIsByCombinedPriority(q);
    Ordered.InsertAllKeepsSorted(q, ps, StatePairLess);
    SortedIsByCombinedPriority(Ordered.InsertAll(q, ps, StatePairLess));
  }

  class ConnectingPrivate {
    /**
     * The states of the stage's own start and end interfaces, in the order
     * they arrived: what `pullInterface(other)` holds when a new state comes.
     */
    var startStates: seq<InterfaceState>
    var endStates: seq<InterfaceState>
    /** Pairs still to be tried, cheapest combined priority first. */
    var pending: seq<StatePair>
    /** The pairs already taken off the queue to be tried. */
    ghost var taken: multiset<StatePair>

    ghost predicate Valid()
      reads this
    {
      Accounted(pending, taken, startStates, endStates)
    }

    constructor ()
      ensures Valid()
      ensures startStates == [] && endStates == [] && pending == [] && taken == multiset{}
    {
      startStates, endStates, pending := [], [], [];
      taken := multiset{};
    }

    /**
     * A new state arrived on the `arrivedAt` side (`Forward`: a start state,
     * `Backward`: an end state): pair it with every state currently on the
     * other side, queue all those pairs, and count it among its side's states.
     */
    method NewState(arrivedAt: Direction, state: InterfaceState)
      requires Valid()
      modifies this`startStates, this`endStates, this`pending
      ensures Valid()
      ensures arrivedAt == Forward ==> startStates == old(startStates) + [state] && endStates == old(endStates)
      ensures arrivedAt == Backward ==> endStates == old(endStates) + [state] && startStates == old(startStates)
      ensures arrivedAt == Forward ==> pending == Ordered.InsertAll(old(pending), PairsWith(Forward, state, old(endStates)), StatePairLess)
      ensures arrivedAt == Backward ==> pending == Ordered.InsertAll(old(pending), PairsWith(Backward, state, old(startStates)), StatePairLess)
    {
      var queued, starts, ends := pending, startStates, endStates;
      var others := if arrivedAt == Forward then ends else starts;
      pending := QueuePairs(queued, arrivedAt, state, others);
      if arrivedAt == Forward {
        startStates := starts + [state];
      } else {
        endStates := ends + [state];
      }
      ArrivalKeepsAccount(starts, ends, queued, startStates, endStates, pending, taken, arrivedAt, state, others);
    }

    /**
     * Take the pair to try next: the front of the queue, which has the
     * lowest combined priority of all pending pairs; `None` when nothing
     * is pending.
     */
    method PopBest() returns (p: Option<StatePair>)
      requires Valid()
      modifies this`pending, this`taken
      ensures Valid()
      ensures p.None? <==> old(pending) == []
      ensures p.None? ==> pending == old(pending) && taken == old(taken)
      ensures p.Some? ==> p.value == old(pending)[0] && pending == old(pending)[1..]
      ensures p.Some? ==> taken == old(taken) + multiset{p.value}
      ensures p.Some? ==> forall i :: 0 <= i < |old(pending)| ==>
                CombinedPriority(p.value) <= CombinedPriority(old(pending)[i])
    {
      if pending == [] {
        p := None;
      } else {
        p := Some(pending[0]);
        assert pending == [pending[0]] + pending[1..];
        taken := taken + multiset{pending[0]};
        pending := pending[1..];
      }
    }
  }

  /**
   * Every pair pending or taken joins a start state with an end state: a
   * connecting stage never pairs two states of the same side.
   */
  lemma QueuedPairsJoinTheTwoSides(c: ConnectingPrivate, p: StatePair)
    requires c.Valid()
    requires p in c.pending || p in c.taken
    ensures p.first in c.startStates && p.second in c.endStates
  {
    AllPairsCount(c.startStates, c.endStates, p.first, p.second);
    FactorsOfPositiveProduct(multiset(c.startStates)[p.first], multiset(c.endStates)[p.second]);
  }

  /**
   * A pair of a start state and an end state that each arrived once is tried
   * at most once: once taken, it is no longer pending.
   */
  lemma TakenPairIsNotPending(c: ConnectingPrivate, s: InterfaceState, e: InterfaceState)
    requires c.Valid()
    requires multiset(c.startStates)[s] == 1 && multiset(c.endStates)[e] == 1
    requires StatePair(s, e) in c.taken
    ensures StatePair(s, e) !in c.pending
  {
    AllPairsCount(c.startStates, c.endStates, s, e);
  }

  /**
   * A pair of a start state and an end state that each arrived once is
   * queued exactly once unless it has been taken.
   */
  lemma UntakenPairIsPendingOnce(c: ConnectingPrivate, s: InterfaceState, e: InterfaceState)
    requires c.Valid()
    requires multiset(c.startStates)[s] == 1 && multiset(c.endStates)[e] == 1
    requires StatePair(s, e) !in c.taken
    ensures multiset(c.pending)[StatePair(s, e)] == 1
  {
    AllPairsCount(c.startStates, c.endStates, s, e);
  }

  /**
   * Queue the pairs `state` forms with each of `others`, one at a time, each
   * at its place in the ordered queue.
   */
  method QueuePairs(pending: seq<StatePair>, arrivedAt: Direction, state: InterfaceState, others: seq<InterfaceState>)
      returns (queue: seq<StatePair>)
    requires ByCombinedPriority(pending)
    ensures ByCombinedPriority(queue)
    ensures queue == Ordered.InsertAll(pending, PairsWith(arrivedAt, state, others), StatePairLess)
    ensures multiset(queue) == multiset(pending) + multiset(PairsWith(arrivedAt, state, others))
  {
    queue := pending;
    var rest := others;
    while rest != []
      invariant Ordered.InsertAll(queue, PairsWith(arrivedAt, state, rest), StatePairLess)
                == Ordered.InsertAll(pending, PairsWith(arrivedAt, state, others), StatePairLess)
    {
      queue := Ordered.Insert(queue, MakePair(arrivedAt, state, rest[0]), StatePairLess);
      rest := rest[1..];
    }
    InsertAllKeepsOrder(pending, PairsWith(arrivedAt, state, others));
  }

  /** The front of a sorted pending queue has minimal combined priority. */
  lemma PendingFrontIsCheapest(pending: seq<StatePair>)
    requires Ordered.Sorted(pending, StatePairLess) && |pending| > 0
    ensures forall i :: 0 <= i < |pending| ==> CombinedPriority(pending[0]) <= CombinedPriority(pending[i])
  {
    StatePairLessIsStrictWeakOrder();
    Ordered.FrontIsLeast(pending, StatePairLess);
  }

  /** The two-by-two example's states: starts s0, s1 and ends e0, e1 of priorities 0 and 5. */
  const S0 := InterfaceState(0, 0)
  const S1 := InterfaceState(1, 5)
  const E0 := InterfaceState(2, 0)
  const E1 := InterfaceState(3, 5)

  lemma TwoByTwoPairs()
    ensures PairsWith(Forward, S0, []) == []
    ensures PairsWith(Backward, E0, [S0]) == [StatePair(S0, E0)]
    ensures PairsWith(Forward, S1, [E0]) == [StatePair(S1, E0)]
    ensures PairsWith(Backward, E1, [S0, S1]) == [StatePair(S0, E1), StatePair(S1, E1)]
  {
    assert [S0, S1][1..] == [S1];
  }

  /** Where each pair of the two-by-two example goes as it is queued. */
  lemma TwoByTwoUpperBounds()
    ensures Ordered.UpperBound([], StatePair(S0, E0), StatePairLess) == 0
    ensures Ordered.UpperBound([StatePair(S0, E0)], StatePair(S1, E0), StatePairLess) == 1
    ensures Ordered.UpperBound([StatePair(S0, E0), StatePair(S1, E0)], StatePair(S0, E1), StatePairLess) == 2
    ensures Ordered.UpperBound([StatePair(S0, E0), StatePair(S1, E0), StatePair(S0, E1)], StatePair(S1, E1), StatePairLess) == 3
  {
    var p00, p10, p01, p11 := StatePair(S0, E0), StatePair(S1, E0), StatePair(S0, E1), StatePair(S1, E1);
    assert [p00][1..] == [];
    assert [p00, p10][1..] == [p10];
    assert [p00, p10, p01][1..] == [p10, p01] && [p10, p01][1..] == [p01];
  }

  lemma TwoByTwoThirdInsertion()
    ensures Ordered.Insert([StatePair(S0, E0), StatePair(S1, E0)], StatePair(S0, E1), StatePairLess)
            == [StatePair(S0, E0), StatePair(S1, E0), StatePair(S0, E1)]
  {
    TwoByTwoUpperBounds();
    var q := [StatePair(S0, E0), StatePair(S1, E0)];
    assert q[..2] == q && q[2..] == [];
  }

  lemma TwoByTwoFourthInsertion()
    ensures Ordered.Insert([StatePair(S0, E0), StatePair(S1, E0), StatePair(S0, E1)], StatePair(S1, E1), StatePairLess)
            == [StatePair(S0, E0), StatePair(S1, E0), StatePair(S0, E1), StatePair(S1, E1)]
  {
    TwoByTwoUpperBounds();
    var q := [StatePair(S0, E0), StatePair(S1, E0), StatePair(S0, E1)];
    assert q[..3] == q && q[3..] == [];
  }

  /**
   * Two sides each receiving states of priority 0 and then 5: start S0,
   * end E0, start S1, end E1, in that order. The queue then holds all four
   * pairs with combined priorities 0, 5, 5, 10; of the two pairs of
   * priority 5 the one queued first comes first.
   */
  lemma TwoByTwoScenario()
    ensures var q0 := Ordered.InsertAll([], PairsWith(Forward, S0, []), StatePairLess);
            var q1 := Ordered.InsertAll(q0, PairsWith(Backward, E0, [S0]), StatePairLess);
            var q2 := Ordered.InsertAll(q1, PairsWith(Forward, S1, [E0]), StatePairLess);
            var q3 := Ordered.InsertAll(q2, PairsWith(Backward, E1, [S0, S1]), StatePairLess);
            q3 == [StatePair(S0, E0), StatePair(S1, E0), StatePair(S0, E1), StatePair(S1, E1)]
  {
    TwoByTwoPairs();
    TwoByTwoFirstArrivals();
    TwoByTwoLastArrival();
  }

  /**
   * The same four arrivals delivered to a connecting stage: its queue ends up
   * holding the four pairs in that order, nothing taken yet.
   */
  method TwoByTwoRun() returns (queue: seq<StatePair>)
    ensures queue == [StatePair(S0, E0), StatePair(S1, E0), StatePair(S0, E1), StatePair(S1, E1)]
  {
    var c := new ConnectingPrivate();
    c.NewState(Forward, S0);
    c.NewState(Backward, E0);
    c.NewState(Forward, S1);
    c.NewState(Backward, E1);
    TwoByTwoScenario();
    queue := c.pending;
  }

  lemma TwoByTwoFirstArrivals()
    ensures Ordered.InsertAll([], [], StatePairLess) == []
    ensures Ordered.InsertAll([], [StatePair(S0, E0)], StatePairLess) == [StatePair(S0, E0)]
    ensures Ordered.InsertAll([StatePair(S0, E0)], [StatePair(S1, E0)], StatePairLess)
            == [StatePair(S0, E0), StatePair(S1, E0)]
  {
    var p00, p10 := StatePair(S0, E0), StatePair(S1, E0);
    TwoByTwoUpperBounds();
    assert [p00][..1] == [p00] && [p00][1..] == [];
    assert [p00][1..] == [] && [p10][1..] == [];
  }

  lemma TwoByTwoLastArrival()
    ensures Ordered.InsertAll([StatePair(S0, E0), StatePair(S1, E0)], [StatePair(S0, E1), StatePair(S1, E1)], StatePairLess)
            == [StatePair(S0, E0), StatePair(S1, E0), StatePair(S0, E1), StatePair(S1, E1)]
  {
    var p00, p10, p01, p11 := StatePair(S0, E0), StatePair(S1, E0), StatePair(S0, E1), StatePair(S1, E1);
    TwoByTwoThirdInsertion();
    TwoByTwoFourthInsertion();
    assert [p01, p11][1..] == [p11] && [p11][1..] == [];
    assert Ordered.InsertAll([p00, p10, p01, p11], [], StatePairLess) == [p00, p10, p01, p11];
  }
}
