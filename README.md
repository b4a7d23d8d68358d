# Stage bookkeeping of a task constructor, in Dafny

This project models the private state kept by every stage of a
MoveIt Task Constructor task (`StagePrivate`) and the pending-pair queue
kept by a connecting stage (`ConnectingPrivate`), and proves what that
code promises about them.

- `wrappers.dfy` (module `Wrappers`): `Option`.
- `ordered.dfy` (module `Ordered`): the `ordered<T, Compare>` container.
  It is a list kept sorted by a comparator. Each insertion goes to the
  position `std::upper_bound` finds. Proved: insertion keeps the list
  sorted, adds exactly the new element, and keeps items the comparator
  cannot tell apart in arrival order. The front is always a least element.
- `stage.dfy` (module `Stages`): interface states, solutions and costs,
  and the class `StagePrivate`. The class holds the owned pull interfaces
  `starts`/`ends`, the weak push links `prevEnds`/`nextStarts`, the parent
  and position in the hierarchy, the introspection link, and the solution
  and failure containers. Interfaces are named by `InterfaceId`. A weak link
  is an `Option<InterfaceId>` that only resolves (`Lock`) while its id is
  still in the set of live interfaces, so a push through a link whose
  interface was destroyed finds nothing.
- `connecting.dfy` (module `Connecting`): `StatePair`, the comparator
  `StatePairLess`, and the class `ConnectingPrivate`. Its `pending` queue
  stays ordered by combined priority, so the pair taken next is always a
  cheapest one. The class also keeps the states that have arrived on its
  start and end interfaces. Its invariant accounts for every pair: each
  (start, end) combination of arrived states is either still pending or
  already taken, exactly once, and nothing else is queued.

Priorities are integers. A solution's cost is `Finite(v)` or `Infinite`,
and an infinite cost marks a failure. `ConnectingPrivate` derives from
`StagePrivate` in the source. Here it is a separate class that holds what
`ConnectingPrivate` adds, plus the states of its start and end interfaces
that `newState` pairs up: Dafny classes cannot inherit without traits.

The header does not contain the bodies of `storeSolution` and `newState`.
Both behaviours below are therefore assumed, not read from code.
`StagePrivate.StoreSolution` assumes that successful solutions are accepted
and go into the ordered `solutions_`, and that failures go into `failures_`
when failures are stored and are otherwise only counted in `num_failures_`
(whose comment, "num of failures if not stored", is the one the header
gives). It also assumes the boolean result is true exactly for an accepted
success; the header declares `storeSolution` without saying what it returns.
`ConnectingPrivate.NewState` pairs the new state with every state currently
on the other side and queues those pairs.

## Model

| member | source | states |
|---|---|---|
| Ordered.UpperBound | core/include/moveit/task_constructor/stage_p.h:271 | the insertion point: nothing before it ranks above the new item; the element at it does |
| Ordered.Insert | core/include/moveit/task_constructor/stage_p.h:271 | insertion adds exactly the new item: length grows by one, multiset gains exactly it |
| Ordered.InsertIsStable | core/include/moveit/task_constructor/stage_p.h:271 | for a strict weak order, the new item goes behind every element it does not rank below (equal items stay in arrival order) and in front of every element it ranks below |
| Ordered.InsertKeepsSorted | core/include/moveit/task_constructor/stage_p.h:271 | insertion into a sorted list gives a sorted list |
| Ordered.InsertAll | core/include/moveit/task_constructor/stage_p.h:271 | inserting a sequence of items adds exactly those items |
| Ordered.InsertAllKeepsSorted | core/include/moveit/task_constructor/stage_p.h:271 | any number of insertions keep a sorted list sorted |
| Ordered.FrontIsLeast | core/include/moveit/task_constructor/stage_p.h:138 | no element of a sorted list ranks below its front |
| Stages.Lock | core/include/moveit/task_constructor/stage_p.h:92-93 | a weak link resolves exactly when it is set and its interface is still alive, and then to that interface |
| Stages.SolutionLess | core/include/moveit/task_constructor/stage_p.h:138 | solutions rank by cost, every finite cost below the infinite one |
| Stages.SolutionLessIsStrictWeakOrder | core/include/moveit/task_constructor/stage_p.h:138 | the cost order of solutions is a strict weak order |
| Stages.InsertKeepsSolutionsValid | core/include/moveit/task_constructor/stage_p.h:138 | inserting a success into the cost-ordered successes keeps them ordered and all successes |
| Stages.StagePrivate.constructor | core/include/moveit/task_constructor/stage_p.h:61 | a new stage has no interfaces, links, parent or introspection, empty containers and a zero failure count |
| Stages.StagePrivate.RequiredInterface | core/include/moveit/task_constructor/stage_p.h:67-70 | the required interface is empty (unknown) exactly when it is auto-detected from context |
| Stages.StagePrivate.PullInterface | core/include/moveit/task_constructor/stage_p.h:100-102 | forward pulls from `starts`, backward from `ends`; one function stands for the const and non-const forms |
| Stages.StagePrivate.PushLink | core/include/moveit/task_constructor/stage_p.h:147-148 | forward pushes go through `nextStarts`, backward ones through `prevEnds` |
| Stages.StagePrivate.PrevEnds | core/include/moveit/task_constructor/stage_p.h:92 | the previous stage's end interface while it is alive, nothing otherwise |
| Stages.StagePrivate.NextStarts | core/include/moveit/task_constructor/stage_p.h:93 | the next stage's start interface while it is alive, nothing otherwise |
| Stages.StagePrivate.PushInterface | core/include/moveit/task_constructor/stage_p.h:101-103 | the push target for a direction is the matching weak link, resolved: present exactly when that link is set and alive |
| Stages.StagePrivate.StoreFailures | core/include/moveit/task_constructor/stage_p.h:124 | failures are stored exactly when an introspection instance is attached |
| Stages.StagePrivate.AssignPullInterface | core/include/moveit/task_constructor/stage_p.h:100 | assigning through `pullInterface(dir)` sets that owned interface and leaves the other one alone |
| Stages.StagePrivate.SetHierarchy | core/include/moveit/task_constructor/stage_p.h:107-110 | sets exactly the parent and the position among siblings |
| Stages.StagePrivate.SetPrevEnds | core/include/moveit/task_constructor/stage_p.h:111 | replaces only the backward push link; owned interfaces and the forward link are untouched |
| Stages.StagePrivate.SetNextStarts | core/include/moveit/task_constructor/stage_p.h:112 | replaces only the forward push link; owned interfaces and the backward link are untouched |
| Stages.StagePrivate.SetIntrospection | core/include/moveit/task_constructor/stage_p.h:113 | changes only the introspection link; failures are stored afterwards exactly when one was given |
| Stages.StagePrivate.StoreSolution | core/include/moveit/task_constructor/stage_p.h:138-140 | accepted iff not a failure; a success is inserted in cost order; a failure is appended when failures are stored, otherwise counted; total failures grow by exactly one per failure |
| Stages.PushAfterTeardownIsEmpty | core/include/moveit/task_constructor/stage_p.h:147-148 | once the linked interface is destroyed, the push target is empty, never the dead interface |
| Stages.WiredPushReachesNeighbourPull | core/include/moveit/task_constructor/stage_p.h:105-112 | when a stage's push link names its neighbour's pull interface and that is alive, pushes land where the neighbour pulls from |
| Stages.FirstSolutionIsCheapest | core/include/moveit/task_constructor/stage_p.h:138 | the first stored solution has the lowest cost |
| Connecting.StatePairLess | core/include/moveit/task_constructor/stage_p.h:249-253 | x ranks before y exactly when x's priority sum is lower |
| Connecting.StatePairLessIsCombinedPriorityOrder | core/include/moveit/task_constructor/stage_p.h:249-253 | x ranks before y iff its priority sum is lower; neither ranks first iff the sums are equal |
| Connecting.StatePairLessIsStrictWeakOrder | core/include/moveit/task_constructor/stage_p.h:249-253 | the comparator is irreflexive, transitive, with transitive incomparability |
| Connecting.SortedIsByCombinedPriority | core/include/moveit/task_constructor/stage_p.h:270-271 | sorted by the comparator iff combined priorities never decrease along the queue |
| Connecting.MakePair | core/include/moveit/task_constructor/stage_p.h:255-256 | the start-side state comes first whichever side the new state arrived on; the key is the sum of both priorities |
| Connecting.PairsWith | core/include/moveit/task_constructor/stage_p.h:266-268 | one pair per state on the other side, in that side's order, so as many pairs as there are states there |
| Connecting.PairsWithAt | core/include/moveit/task_constructor/stage_p.h:266-268 | a new state forms one pair with each state on the other side, in order |
| Connecting.PairsWithAppend | core/include/moveit/task_constructor/stage_p.h:266-268 | one more state on the other side adds exactly its pair, at the end |
| Connecting.AllPairsAddStart | core/include/moveit/task_constructor/stage_p.h:266-268 | a new start state adds to the set of all (start, end) pairs exactly its pairs with every end state |
| Connecting.AllPairsAddEnd | core/include/moveit/task_constructor/stage_p.h:266-268 | a new end state adds to the set of all (start, end) pairs exactly its pairs with every start state |
| Connecting.PairsWithCount | core/include/moveit/task_constructor/stage_p.h:266-268 | among a new start state's pairs, (s, e) occurs as often as e is an end state, and only when s is the new state |
| Connecting.AllPairsCount | core/include/moveit/task_constructor/stage_p.h:266-271 | every (start, end) pair occurs exactly (occurrences of the start) times (occurrences of the end): once per combination, never two states of one side |
| Connecting.ArrivalKeepsAccount | core/include/moveit/task_constructor/stage_p.h:266-271 | queuing a new state's pairs with the other side keeps every (start, end) pair either pending or taken, exactly once |
| Connecting.QueuePairs | core/include/moveit/task_constructor/stage_p.h:266-271 | inserting the pairs one at a time gives the queue with all of them inserted in order: still ordered, exactly those pairs added |
| Connecting.InsertAllKeepsOrder | core/include/moveit/task_constructor/stage_p.h:270-271 | queuing any pairs keeps the queue ordered by combined priority |
| Connecting.ConnectingPrivate.constructor | core/include/moveit/task_constructor/stage_p.h:259 | a new connecting stage has no states, nothing pending and nothing taken, and its invariant holds |
| Connecting.ConnectingPrivate.NewState | core/include/moveit/task_constructor/stage_p.h:266-268 | the new state joins its own side; its pairs with every state already on the other side are inserted in order; every (start, end) pair stays pending or taken exactly once |
| Connecting.ConnectingPrivate.PopBest | core/include/moveit/task_constructor/stage_p.h:270-271 | takes the front pair, whose combined priority is minimal among all pending pairs, and moves it from pending to taken; nothing when the queue is empty |
| Connecting.QueuedPairsJoinTheTwoSides | core/include/moveit/task_constructor/stage_p.h:266-271 | every pending or taken pair joins an arrived start state with an arrived end state |
| Connecting.TakenPairIsNotPending | core/include/moveit/task_constructor/stage_p.h:266-271 | a pair of states that each arrived once, once taken, is no longer pending |
| Connecting.UntakenPairIsPendingOnce | core/include/moveit/task_constructor/stage_p.h:266-271 | a pair of states that each arrived once and has not been taken is pending exactly once |
| Connecting.PendingFrontIsCheapest | core/include/moveit/task_constructor/stage_p.h:248-253 | the front of an ordered pending queue has minimal combined priority |
| Connecting.TwoByTwoScenario | core/include/moveit/task_constructor/stage_p.h:248-271 | starts and ends of priorities 0 and 5 arriving alternately give the queue with sums 0, 5, 5, 10; of the two ties, the one queued first comes first |
| Connecting.TwoByTwoRun | core/include/moveit/task_constructor/stage_p.h:248-271 | the same four arrivals delivered to a connecting stage leave exactly that queue |

## Left out

- `compute()`, `canCompute()`, `validateConnectivity()`, `interfaceFlags()` and the stage kinds' `requiredInterface()` overrides: their bodies are not in the header. Their only modelled part is `RequiredInterface`, with the declared flags held as a constant.
- `pruneInterface`: the base version does nothing, and its override in the either-way propagating stage is not in the header.
- `sendForward`, `sendBackward`, `spawn`, `connect`, `newSolution`, `initInterface`, `dropFailedStarts`/`dropFailedEnds`, `hasStartState`/`fetchStartState` and the end-side versions: their bodies are not in the header. The `states_` list (storage for created states) is not modelled: these operations are the ones that fill and read it.
- Connecting.ConnectingPrivate.NewState: does not model the `updated` flag. That flag re-sorts pairs whose state changed priority.
- Connecting.ConnectingPrivate.PopBest: models only how `compute()` takes the next pair. The bridging attempt is domain code.
- Stages.StagePrivate.StoreSolution: does not model the solution callbacks (`solution_cbs_`) or registering the solution with the introspection instance. These are observer calls with no state in this model. What the library returns for a failure it stores is not shown; the model returns `false` for every failure, stored or counted.
- The MonitoringGenerator's callback registration (`monitored_`, `cb_`, `registered_`): it relies on list iterators into another stage, and its behaviour is not in the header.
- The name and property map and `composePropertyErrorMsg`/`operator<<`: configuration storage and diagnostic formatting.
- Shared and weak pointer ownership itself, and the `PIMPL_FUNCTIONS` cast macro. Interfaces are arena ids, and an interface is alive while its id is in the `live` set passed to a push. Interface ids are never reused: an id that has left `live` never returns to it, just as an expired weak pointer never locks again. Nothing in the model enforces this; `Lock` is right only under it.
- Floating-point priorities and costs are integers here, and an infinite cost is the `Infinite` constructor. In the library a state's priority also carries a depth used to break ties; the model has only the scalar.
- Connecting.StatePair: pairs hold copies of their two states, not iterators into the interfaces, so a pair's key is fixed when it is queued. In the library the comparator reads the priorities through the iterators, and a state whose priority changes (the `updated` case of `newState`) makes the queue out of order until it is re-sorted. Priority changes of queued states are not modelled, and the ordering of `pending` is proved only between such changes. Removing a state from an interface while pairs still refer to it is not modelled either.
- Connecting.ConnectingPrivate: keeps its own copies of the states of its start and end interfaces, in arrival order. In the library it reads them from `starts_`/`ends_`, whose `Interface` type keeps them ordered by priority; only the order among pairs of equal combined priority depends on this. The `Interface` class is not part of this model.
- `visualization/motion_planning_tasks/task_display.cpp` is not part of this model: it is RViz/Qt display and ROS plumbing.
