/**
 * The bookkeeping every stage of a task keeps (`StagePrivate`): the two
 * interfaces it pulls states from and owns, the two interfaces of its
 * neighbours it pushes states into without owning them, its place in the
 * container hierarchy, and the solutions and failures it has produced.
 *
 * Interfaces live in an arena and are named by `InterfaceId`. An owned
 * interface is held as `Some(id)`. A non-owning (weak) link is also held as
 * `Some(id)`, but it only resolves while `id` is in the set of interfaces
 * still alive, which every push has to pass in.
 */
module Stages {
  import opened Wrappers
  import Ordered

  /** Propagation direction of an interface. */
  datatype Direction = Forward | Backward

  type InterfaceId = nat

  /** A state in an interface, with the priority interfaces and queues order it by. */
  datatype InterfaceState = InterfaceState(id: nat, priority: int)

  /** A solution's cost; an infinite cost marks a failed attempt. */
  datatype Cost = Finite(value: int) | Infinite

  datatype Solution = Solution(id: nat, cost: Cost, comment: string)

  predicate IsFailure(s: Solution) {
    s.cost.Infinite?
  }

  /** Solutions compare by cost; every finite cost is below the infinite one. */
  predicate SolutionLess(x: Solution, y: Solution) {
    x.cost.Finite? && (y.cost.Infinite? || x.cost.value < y.cost.value)
  }

  lemma SolutionLessIsStrictWeakOrder()
    ensures Ordered.StrictWeakOrder(SolutionLess)
  {
  }

  /** The kinds of interface a stage may read from or write to. */
  datatype InterfaceFlag = ReadsStart | ReadsEnd | WritesNextStart | WritesPrevEnd

  type InterfaceFlags = set<InterfaceFlag>

  /** The interface a stage kind declares; never empty (empty is reserved for "unknown"). */
  type DeclaredFlags = f: InterfaceFlags | f != {} witness {ReadsStart}

  /**
   * `std::weak_ptr::lock`: the linked interface while it is still alive,
   * nothing once it is gone.
   */
  function Lock(link: Option<InterfaceId>, live: set<InterfaceId>): (r: Option<InterfaceId>)
    ensures r.Some? <==> link.Some? && link.value in live
    ensures r.Some? ==> r == link
  {
    if link.Some? && link.value in live then link else None
  }

  /** Inserting a success into a cost-ordered list of successes yields one again. */
  lemma InsertKeepsSolutionsValid(solutions: seq<Solution>, solution: Solution)
    requires Ordered.Sorted(solutions, SolutionLess)
    requires forall i :: 0 <= i < |solutions| ==> !IsFailure(solutions[i])
    requires !IsFailure(solution)
    ensures var r := Ordered.Insert(solutions, solution, SolutionLess);
            Ordered.Sorted(r, SolutionLess) && forall i :: 0 <= i < |r| ==> !IsFailure(r[i])
  {
  }

  class StagePrivate {
    const name: string
    /** The interface a concrete stage kind requires; `None` when it is auto-detected from context. */
    const declared: Option<DeclaredFlags>

    /** Owned pull interfaces. */
    var starts: Option<InterfaceId>
    var ends: Option<InterfaceId>

    /** Non-owning push links: `prevEnds` for sending backward, `nextStarts` for sending forward. */
    var prevEnds: Option<InterfaceId>
    var nextStarts: Option<InterfaceId>

    /** Owning container and this stage's position among its children; only a container sets them. */
    var parent: Option<nat>
    var it: nat

    /** The task's introspection instance, if one is attached. */
    var introspection: Option<nat>

    /** Accepted solutions, cheapest first. */
    var solutions: seq<Solution>
    /** Failed attempts, kept only while failures are stored. */
    var failures: seq<Solution>
    /** Failed attempts that were counted rather than stored. */
    var numFailures: nat

    /** Accepted solutions are successes kept in cost order; stored failures are failures. */
    ghost predicate Valid()
      reads this`solutions, this`failures
    {
      && Ordered.Sorted(solutions, SolutionLess)
      && (forall i :: 0 <= i < |solutions| ==> !IsFailure(solutions[i]))
      && (forall i :: 0 <= i < |failures| ==> IsFailure(failures[i]))
    }

    constructor (name: string, declared: Option<DeclaredFlags>)
      ensures Valid()
      ensures this.name == name && this.declared == declared
      ensures starts == None && ends == None && prevEnds == None && nextStarts == None
      ensures parent == None && introspection == None
      ensures solutions == [] && failures == [] && numFailures == 0
    {
      this.name := name;
      this.declared := declared;
      starts, ends, prevEnds, nextStarts := None, None, None, None;
      parent, it, introspection := None, 0, None;
      solutions, failures, numFailures := [], [], 0;
    }

    /** The interface this stage requires: empty means unknown, to be auto-detected. */
    function RequiredInterface(): (r: InterfaceFlags)
      ensures r == {} <==> declared.None?
      ensures declared.Some? ==> r == declared.value
    {
      if declared.Some? then declared.value else {}
    }

    /** The owned interface states are pulled from: `starts` forward, `ends` backward. */
    function PullInterface(dir: Direction): (r: Option<InterfaceId>)
      reads this`starts, this`ends
      ensures dir == Forward ==> r == starts
      ensures dir == Backward ==> r == ends
    {
      if dir == Forward then starts else ends
    }

    /** The neighbour's interface a push in `dir` goes to, as linked (not yet resolved). */
    function PushLink(dir: Direction): (r: Option<InterfaceId>)
      reads this`prevEnds, this`nextStarts
      ensures dir == Forward ==> r == nextStarts
      ensures dir == Backward ==> r == prevEnds
    {
      if dir == Forward then nextStarts else prevEnds
    }

    function PrevEnds(live: set<InterfaceId>): (r: Option<InterfaceId>)
      reads this`prevEnds
      ensures r.Some? <==> prevEnds.Some? && prevEnds.value in live
      ensures r.Some? ==> r == prevEnds
    {
      Lock(prevEnds, live)
    }

    function NextStarts(live: set<InterfaceId>): (r: Option<InterfaceId>)
      reads this`nextStarts
      ensures r.Some? <==> nextStarts.Some? && nextStarts.value in live
      ensures r.Some? ==> r == nextStarts
    {
      Lock(nextStarts, live)
    }

    /**
     * The interface a push in `dir` goes to: the resolved `nextStarts`
     * forward, `prevEnds` backward; `None` when the link is unset or its
     * interface no longer exists.
     */
    function PushInterface(dir: Direction, live: set<InterfaceId>): (r: Option<InterfaceId>)
      reads this`prevEnds, this`nextStarts
      ensures r.Some? <==> PushLink(dir).Some? && PushLink(dir).value in live
      ensures r.Some? ==> r == PushLink(dir) && r.value in live
      ensures dir == Forward ==> r == NextStarts(live)
      ensures dir == Backward ==> r == PrevEnds(live)
    {
      if dir == Forward then NextStarts(live) else PrevEnds(live)
    }

    /** Failures are stored exactly when an introspection instance is attached. */
    function StoreFailures(): (r: bool)
      reads this`introspection
      ensures r <==> introspection.Some?
    {
      introspection.Some?
    }

    /** Every failed attempt, whether stored or only counted. */
    function FailureCount(): nat
      reads this`failures, this`numFailures
    {
      |failures| + numFailures
    }

    /** Assignment through the reference `pullInterface(dir)` returns: only that one owned interface changes. */
    method AssignPullInterface(dir: Direction, i: Option<InterfaceId>)
      modifies this`starts, this`ends
      ensures PullInterface(dir) == i
      ensures dir == Forward ==> ends == old(ends)
      ensures dir == Backward ==> starts == old(starts)
    {
      if dir == Forward {
        starts := i;
      } else {
        ends := i;
      }
    }

    method SetHierarchy(parent: Option<nat>, it: nat)
      modifies this`parent, this`it
      ensures this.parent == parent && this.it == it
    {
      this.parent := parent;
      this.it := it;
    }

    method SetPrevEnds(prevEnds: Option<InterfaceId>)
      modifies this`prevEnds
      ensures this.prevEnds == prevEnds
      ensures PushLink(Backward) == prevEnds && PushLink(Forward) == old(PushLink(Forward))
    {
      this.prevEnds := prevEnds;
    }

    method SetNextStarts(nextStarts: Option<InterfaceId>)
      modifies this`nextStarts
      ensures this.nextStarts == nextStarts
      ensures PushLink(Forward) == nextStarts && PushLink(Backward) == old(PushLink(Backward))
    {
      this.nextStarts := nextStarts;
    }

    method SetIntrospection(introspection: Option<nat>)
      modifies this`introspection
      ensures this.introspection == introspection
      ensures StoreFailures() <==> introspection.Some?
    {
      this.introspection := introspection;
    }

    /**
     * Record the outcome of one computation attempt: a success goes into the
     * cost-ordered solution list and is accepted; a failure is stored when
     * failures are stored and otherwise only counted.
     */
    method StoreSolution(solution: Solution) returns (accepted: bool)
      requires Valid()
      modifies this`solutions, this`failures, this`numFailures
      ensures Valid()
      ensures accepted <==> !IsFailure(solution)
      ensures accepted ==> solutions == Ordered.Insert(old(solutions), solution, SolutionLess)
      ensures accepted ==> failures == old(failures) && numFailures == old(numFailures)
      ensures !accepted ==> solutions == old(solutions)
      ensures !accepted && StoreFailures() ==> failures == old(failures) + [solution] && numFailures == old(numFailures)
      ensures !accepted && !StoreFailures() ==> failures == old(failures) && numFailures == old(numFailures) + 1
      ensures FailureCount() == old(FailureCount()) + (if accepted then 0 else 1)
    {
      if IsFailure(solution) {
        accepted := false;
        if StoreFailures() {
          failures := failures + [solution];
        } else {
          numFailures := numFailures + 1;
        }
      } else {
        accepted := true;
        InsertKeepsSolutionsValid(solutions, solution);
        solutions := Ordered.Insert(solutions, solution, SolutionLess);
      }
    }
  }

  /**
   * Once the interface a weak link names has been destroyed, pushing
   * through that link finds nothing: it is never the dangling interface.
   */
  lemma PushAfterTeardownIsEmpty(stage: StagePrivate, dir: Direction, live: set<InterfaceId>, gone: InterfaceId)
    requires stage.PushLink(dir) == Some(gone)
    ensures stage.PushInterface(dir, live - {gone}) == None
  {
  }

  /**
   * Wiring: when `a`'s push link in `dir` names `b`'s pull interface for
   * `dir` (what a container sets up between neighbours) and that interface is
   * alive, whatever `a` pushes in `dir` lands where `b` pulls from.
   */
  lemma WiredPushReachesNeighbourPull(a: StagePrivate, b: StagePrivate, dir: Direction, live: set<InterfaceId>)
    requires a.PushLink(dir) == b.PullInterface(dir)
    requires b.PullInterface(dir).Some? && b.PullInterface(dir).value in live
    ensures a.PushInterface(dir, live) == b.PullInterface(dir)
  {
  }

  /** The front of the solution list is a cheapest solution. */
  lemma FirstSolutionIsCheapest(stage: StagePrivate)
    requires stage.Valid() && |stage.solutions| > 0
    ensures forall i :: 0 <= i < |stage.solutions| ==>
              stage.solutions[0].cost.value <= stage.solutions[i].cost.value
  {
    SolutionLessIsStrictWeakOrder();
    Ordered.FrontIsLeast(stage.solutions, SolutionLess);
  }
}
