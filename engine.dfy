/**
 * The graph's declared wiring and a driver that follows it super-step by
 * super-step: every unit of the frontier runs against the same snapshot, the
 * partial updates are merged in ascending unit order, and each unit with a
 * conditional edge asks the router for the next frontier.
 *
 *   __start__ -> entry_node -> should_continue
 *   sequential_node -> should_continue
 *   parallel_node -> __end__
 */
module Engine {
  import opened Wrappers
  import opened BenchState
  import opened Nodes
  import opened Router

  datatype NodeName = Entry | Sequential | Parallel

  /** One execution unit; a parallel unit carries its `Send` overlay's `parallel_id`. */
  datatype Task = EntryTask | SequentialTask | ParallelTask(parallelId: int) {
    function Node(): NodeName {
      match this
      case EntryTask => Entry
      case SequentialTask => Sequential
      case ParallelTask(_) => Parallel
    }
  }

  /** A node's out-edge: to the router (a conditional edge) or to `__end__`. */
  datatype Edge = ToRouter | ToEnd

  /** The out-edges the graph declares: only the parallel node leads straight to `__end__`. */
  function OutEdge(n: NodeName): (e: Edge)
    ensures e == ToEnd <==> n == Parallel
  {
    match n
    case Entry => ToRouter
    case Sequential => ToRouter
    case Parallel => ToEnd
  }

  /** `__start__` leads to the entry node, with no overlay. */
  const StartTask: Task := EntryTask

  /** The units a routing decision schedules. */
  function Dispatch(route: Route): (tasks: seq<Task>)
    ensures route.Terminal? ==> tasks == []
    ensures route.NextNode? ==> tasks == [SequentialTask]
    ensures route.BranchSet? ==>
      |tasks| == |route.parallelIds| &&
      forall i :: 0 <= i < |tasks| ==> tasks[i] == ParallelTask(route.parallelIds[i])
  {
    match route
    case Terminal => []
    case NextNode => [SequentialTask]
    case BranchSet(ids) => seq(|ids|, i requires 0 <= i < |ids| => ParallelTask(ids[i]))
  }

  /** Run one unit's handler on the snapshot. Only the entry node can fail. */
  function Execute(t: Task, s: State): (r: Result<Update, RunError>)
    ensures r.Failure? ==> t.EntryTask?
    ensures r.Success? && r.value.mode.Some? ==> t.EntryTask? && r.value.mode.value.Member?
    ensures r.Success? && !t.EntryTask? ==> Advances(r.value, s.counter)
  {
    match t
    case EntryTask => EntryNode(s)
    case SequentialTask => Success(SequentialUpdate(s))
    case ParallelTask(k) => Success(ParallelNode(s, k))
  }

  /**
   * The updates of a super-step's units in unit order, or the error of the
   * failing unit with the lowest index.
   */
  function Collect<T, E>(rs: seq<Result<T, E>>): (r: Result<seq<T>, E>)
    ensures r.Success? <==> forall i :: 0 <= i < |rs| ==> rs[i].Success?
    ensures r.Success? ==>
      |r.value| == |rs| && forall i :: 0 <= i < |rs| ==> rs[i] == Success(r.value[i])
    ensures r.Failure? ==>
      exists i :: 0 <= i < |rs| && rs[i] == Failure(r.error) &&
        forall j :: 0 <= j < i ==> rs[j].Success?
    decreases |rs|
  {
    if rs == [] then Success([])
    else
      var init := rs[..|rs| - 1];
      assert forall i :: 0 <= i < |init| ==> init[i] == rs[i];
      match Collect(init)
      case Failure(e) => Failure(e)
      case Success(vs) =>
        match rs[|rs| - 1]
        case Failure(e) => Failure(e)
        case Success(v) => Success(vs + [v])
  }

  /** What each unit of the frontier returns when run against the snapshot `s`. */
  function Results(s: State, frontier: seq<Task>): (rs: seq<Result<Update, RunError>>)
    ensures |rs| == |frontier|
    ensures forall i :: 0 <= i < |frontier| ==> rs[i] == Execute(frontier[i], s)
  {
    seq(|frontier|, i requires 0 <= i < |frontier| => Execute(frontier[i], s))
  }

  /** Run every unit of a frontier against the same snapshot. */
  function RunUnits(s: State, frontier: seq<Task>): Result<seq<Update>, RunError> {
    Collect(Results(s, frontier))
  }

  /** The frontier after a super-step: each unit with a conditional edge contributes its router's units. */
  function NextFrontier(frontier: seq<Task>, merged: State): seq<Task>
    requires merged.mode.Member?
    decreases |frontier|
  {
    if frontier == [] then []
    else
      NextFrontier(frontier[..|frontier| - 1], merged) +
      match OutEdge(frontier[|frontier| - 1].Node())
      case ToEnd => []
      case ToRouter => Dispatch(ShouldContinue(merged))
  }

  /** Before routing, the mode is resolved: either it already was, or the entry unit just resolved it. */
  lemma MergedModeResolved(s: State, frontier: seq<Task>, us: seq<Update>)
    requires s.mode.Member? || frontier == [StartTask]
    requires RunUnits(s, frontier) == Success(us)
    ensures ApplyAll(s, us).mode.Member?
  {
    if s.mode.Member? {
      ApplyAllKeepsResolved(s, us);
    } else {
      assert us[..0] == [];
      assert ApplyAll(s, us) == Apply(s, us[0]);
    }
  }

  /** One super-step: execute the frontier, wait for all units, merge, route. */
  function SuperStep(s: State, frontier: seq<Task>): (r: Result<(State, seq<Task>), RunError>)
    requires s.mode.Member? || frontier == [StartTask]
    ensures r.Failure? ==> EntryTask in frontier
    ensures r.Success? ==> r.value.0.mode.Member?
    ensures r.Success? ==>
      |r.value.0.messages| >= |s.messages| && r.value.0.messages[..|s.messages|] == s.messages
  {
    match RunUnits(s, frontier)
    case Failure(e) => Failure(e)
    case Success(us) =>
      MergedModeResolved(s, frontier, us);
      ApplyAllKeepsLog(s, us);
      var merged := ApplyAll(s, us);
      Success((merged, NextFrontier(frontier, merged)))
  }

  /**
   * After the entry step, a super-step never fails, keeps the settings and
   * the mode, never lowers the counter and only appends to the log.
   */
  lemma SuperStepMonotone(s: State, frontier: seq<Task>)
    requires s.mode.Member?
    requires EntryTask !in frontier
    ensures SuperStep(s, frontier).Success?
    ensures var s' := SuperStep(s, frontier).value.0;
      && s'.mode == s.mode && s'.counter >= s.counter
      && s'.delay == s.delay && s'.dataSize == s.dataSize && s'.expand == s.expand
  {
    var us := RunUnits(s, frontier).value;
    ApplyAllAdvances(s, us);
  }

  /** Execute every unit of the frontier against the snapshot, stopping at the first failure. */
  method ExecuteFrontier(s: State, frontier: seq<Task>) returns (r: Result<seq<Update>, RunError>)
    ensures r == RunUnits(s, frontier)
  {
    ghost var rs := Results(s, frontier);
    var updates: seq<Update> := [];
    for i := 0 to |frontier|
      invariant Collect(rs[..i]) == Success(updates)
    {
      assert rs[..i + 1][..i] == rs[..i];
      var u: Update;
      match frontier[i] {
        case EntryTask =>
          var e := EntryNode(s);
          if e.Failure? {
            return Failure(e.error);
          }
          u := e.value;
        case SequentialTask =>
          u := SequentialNode(s);
        case ParallelTask(k) =>
          u := ParallelNode(s, k);
      }
      updates := updates + [u];
    }
    assert rs[..|frontier|] == rs;
    r := Success(updates);
  }

  /** After the barrier: merge the units' updates into the state one by one, in unit order. */
  method MergeUpdates(s: State, updates: seq<Update>) returns (merged: State)
    ensures merged == ApplyAll(s, updates)
  {
    merged := s;
    for i := 0 to |updates|
      invariant merged == ApplyAll(s, updates[..i])
    {
      assert updates[..i + 1][..i] == updates[..i];
      merged := Apply(merged, updates[i]);
    }
    assert updates[..|updates|] == updates;
  }

  /** Ask the router once for every unit whose out-edge is conditional, and collect the units it schedules. */
  method RouteFrontier(frontier: seq<Task>, merged: State) returns (next: seq<Task>)
    requires merged.mode.Member?
    ensures next == NextFrontier(frontier, merged)
  {
    next := [];
    for i := 0 to |frontier|
      invariant next == NextFrontier(frontier[..i], merged)
    {
      assert frontier[..i + 1][..i] == frontier[..i];
      if OutEdge(frontier[i].Node()) == ToRouter {
        next := next + Dispatch(ShouldContinue(merged));
      }
    }
    assert frontier[..|frontier|] == frontier;
  }

  /** `SuperStep`, executed: run the units, wait for all of them, merge, route. */
  method RunSuperStep(s: State, frontier: seq<Task>) returns (r: Result<(State, seq<Task>), RunError>)
    requires s.mode.Member? || frontier == [StartTask]
    ensures r == SuperStep(s, frontier)
  {
    var executed := ExecuteFrontier(s, frontier);
    if executed.Failure? {
      return Failure(executed.error);
    }
    MergedModeResolved(s, frontier, executed.value);
    var merged := MergeUpdates(s, executed.value);
    var next := RouteFrontier(frontier, merged);
    r := Success((merged, next));
  }

  // ---- What a whole run yields -----------------------------------------------------------

  /** The state right after a successful entry super-step with resolved mode `m`. */
  function Entered(input: State, m: BenchmarkMode): State {
    input.(counter := 0, mode := Member(m), messages := input.messages + [Message(0, EntryGreeting)])
  }

  /** The messages that `n` worker nodes of the given kind log, ids 1..n in ascending order. */
  function Log(kind: string, n: nat, dataSize: int): (log: seq<Message>)
    ensures |log| == n
    ensures forall i :: 0 <= i < n ==> log[i].id == i + 1
  {
    seq(n, i => Message(i + 1, NodeContent(kind, i + 1, dataSize)))
  }

  /** The parallel units of a fan-out to ids 1..n. */
  function ParallelTasks(n: nat): seq<Task> {
    seq(n, i => ParallelTask(i + 1))
  }

  /**
   * What a run of the graph yields, in closed form: the mode error, or the
   * entered state extended by the sequential chain or the fan-out.
   */
  function Outcome(input: State): Result<State, RunError> {
    match ResolveMode(input.mode)
    case Failure(e) => Failure(e)
    case Success(m) =>
      var n := Max0(input.expand);
      var entered := Entered(input, m);
      match m
      case SingleNode => Success(entered)
      case SequentialNodes =>
        Success(entered.(counter := n, messages := entered.messages + Log("sequential", n, input.dataSize)))
      case ParallelNodes =>
        Success(entered.(messages := entered.messages + Log("parallel", n, input.dataSize)))
  }

  /** How many super-steps a run takes, the failing one included. */
  function Steps(input: State): nat {
    match ResolveMode(input.mode)
    case Failure(_) => 1
    case Success(m) =>
      match m
      case SingleNode => 1
      case SequentialNodes => Max0(input.expand) + 1
      case ParallelNodes => if input.expand > 0 then 2 else 1
  }

  /** The states, frontiers and step counts the driver passes through on `input`. */
  ghost predicate Reachable(input: State, s: State, frontier: seq<Task>, steps: nat) {
    if steps == 0 then s == input && frontier == [StartTask]
    else
      && ResolveMode(input.mode).Success?
      && var m := ResolveMode(input.mode).value;
         var n := Max0(input.expand);
         var entered := Entered(input, m);
         match m
         case SingleNode => steps == 1 && s == entered && frontier == []
         case SequentialNodes =>
           && steps <= n + 1
           && s == entered.(counter := steps - 1,
                            messages := entered.messages + Log("sequential", steps - 1, input.dataSize))
           && frontier == (if steps <= n then [SequentialTask] else [])
         case ParallelNodes =>
           || (steps == 1 && s == entered && frontier == ParallelTasks(n))
           || (steps == 2 && n > 0 && frontier == []
               && s == entered.(messages := entered.messages + Log("parallel", n, input.dataSize)))
  }

  lemma ReachableBounds(input: State, s: State, frontier: seq<Task>, steps: nat)
    requires Reachable(input, s, frontier, steps)
    ensures steps <= Max0(input.expand) + 1
    ensures s.mode.Member? || frontier == [StartTask]
  {
  }

  /** When the frontier is empty, the driver holds the closed-form outcome. */
  lemma ReachableFinal(input: State, s: State, steps: nat)
    requires Reachable(input, s, [], steps)
    ensures Outcome(input) == Success(s)
    ensures Steps(input) == steps
  {
    var m := ResolveMode(input.mode).value;
    var n := Max0(input.expand);
    var entered := Entered(input, m);
    match m
    case SingleNode =>
    case SequentialNodes =>
    case ParallelNodes =>
      if steps == 1 {
        assert n == 0;
        assert Log("parallel", n, input.dataSize) == [];
        assert entered.messages + [] == entered.messages;
      }
  }

  /** The messages a fan-out to ids 1..|us| contributes are the parallel log, in ascending id order. */
  lemma {:induction false} BranchLog(s: State, us: seq<Update>)
    requires forall i :: 0 <= i < |us| ==> us[i] == ParallelNode(s, i + 1)
    ensures Flatten(us) == Log("parallel", |us|, s.dataSize)
    decreases |us|
  {
    if us != [] {
      var init := us[..|us| - 1];
      BranchLog(s, init);
      var n := |us|;
      assert Log("parallel", n, s.dataSize) == Log("parallel", n - 1, s.dataSize) + us[n - 1].messages;
    }
  }

  /** Every unit of the next frontier is one that the router's decision on the merged state schedules. */
  lemma {:induction false} NextFrontierRouted(frontier: seq<Task>, merged: State)
    requires merged.mode.Member?
    ensures forall t :: t in NextFrontier(frontier, merged) ==> t in Dispatch(ShouldContinue(merged))
    decreases |frontier|
  {
    if frontier != [] {
      NextFrontierRouted(frontier[..|frontier| - 1], merged);
    }
  }

  /** Once a unit with a conditional edge has run, every unit the router's decision schedules is in the next frontier. */
  lemma {:induction false} NextFrontierComplete(frontier: seq<Task>, merged: State)
    requires merged.mode.Member?
    requires exists i :: 0 <= i < |frontier| && OutEdge(frontier[i].Node()) == ToRouter
    ensures forall t :: t in Dispatch(ShouldContinue(merged)) ==> t in NextFrontier(frontier, merged)
    decreases |frontier|
  {
    var last := |frontier| - 1;
    var init := frontier[..last];
    if OutEdge(frontier[last].Node()) == ToEnd {
      var i :| 0 <= i < |frontier| && OutEdge(frontier[i].Node()) == ToRouter;
      assert i < last && init[i] == frontier[i];
      NextFrontierComplete(init, merged);
    }
  }

  /** Units whose out-edge leads to `__end__` schedule nothing. */
  lemma {:induction false} BranchesEnd(frontier: seq<Task>, merged: State)
    requires merged.mode.Member?
    requires forall i :: 0 <= i < |frontier| ==> OutEdge(frontier[i].Node()) == ToEnd
    ensures NextFrontier(frontier, merged) == []
    decreases |frontier|
  {
    if frontier != [] {
      BranchesEnd(frontier[..|frontier| - 1], merged);
    }
  }

  lemma CollectSingle<T, E>(x: Result<T, E>)
    ensures Collect([x]) == match x case Success(v) => Success([v]) case Failure(e) => Failure(e)
  {
    assert [x][..0] == [];
    if x.Success? {
      assert [] + [x.value] == [x.value];
    }
  }

  lemma ApplyAllSingle(s: State, u: Update)
    ensures ApplyAll(s, [u]) == Apply(s, u)
  {
    assert [u][..0] == [];
  }

  lemma NextFrontierSingle(t: Task, merged: State)
    requires merged.mode.Member?
    ensures NextFrontier([t], merged) ==
      match OutEdge(t.Node()) case ToEnd => [] case ToRouter => Dispatch(ShouldContinue(merged))
  {
    assert [t][..0] == [];
  }

  /** A super-step of a single unit: its update alone is merged, and its own edge is followed. */
  lemma SingleUnitStep(s: State, t: Task)
    requires s.mode.Member? || [t] == [StartTask]
    ensures match Execute(t, s)
      case Failure(e) => SuperStep(s, [t]) == Failure(e)
      case Success(u) =>
        Apply(s, u).mode.Member? &&
        SuperStep(s, [t]) == Success((Apply(s, u), NextFrontier([t], Apply(s, u))))
  {
    assert Results(s, [t]) == [Execute(t, s)];
    CollectSingle(Execute(t, s));
    if Execute(t, s).Success? {
      ApplyAllSingle(s, Execute(t, s).value);
    }
  }

  /** The entry super-step: fails exactly on an unknown mode, otherwise enters the run. */
  lemma EntryStep(input: State)
    ensures match SuperStep(input, [StartTask])
      case Failure(e) => Outcome(input) == Failure(e) && Steps(input) == 1
      case Success(next) => Reachable(input, next.0, next.1, 1)
  {
    SingleUnitStep(input, StartTask);
    if EntryNode(input).Success? {
      var m := ResolveMode(input.mode).value;
      var merged := Apply(input, EntryNode(input).value);
      assert merged.messages == input.messages + [Message(0, EntryGreeting)];
      assert merged == Entered(input, m);
      NextFrontierSingle(StartTask, merged);
      if m == SequentialNodes {
        assert Log("sequential", 0, input.dataSize) == [];
        assert merged.messages + [] == merged.messages;
      }
    }
  }

  /** Merging the next sequential update into a chain of k steps gives the chain of k + 1 steps. */
  lemma ChainAdvance(e: State, k: nat)
    ensures var s := e.(counter := k, messages := e.messages + Log("sequential", k, e.dataSize));
      Apply(s, SequentialUpdate(s)) ==
        e.(counter := k + 1, messages := e.messages + Log("sequential", k + 1, e.dataSize))
  {
    var before := Log("sequential", k, e.dataSize);
    var after := Log("sequential", k + 1, e.dataSize);
    var s := e.(counter := k, messages := e.messages + before);
    var u := SequentialUpdate(s);
    assert after == before + u.messages;
    assert Apply(s, u).messages == e.messages + after;
  }

  /** The state after the lone sequential unit has run and been merged `k` times, starting from `s`. */
  function SequentialChain(s: State, k: nat): State
    decreases k
  {
    if k == 0 then s
    else
      var prev := SequentialChain(s, k - 1);
      Apply(prev, SequentialUpdate(prev))
  }

  /**
   * Running the sequential node k times from counter 0, merging each update,
   * ends with counter k and the log extended by ids 1..k in order.
   */
  lemma {:induction false} ChainLog(e: State, k: nat)
    requires e.counter == 0
    ensures SequentialChain(e, k) ==
      e.(counter := k, messages := e.messages + Log("sequential", k, e.dataSize))
    decreases k
  {
    if k == 0 {
      assert Log("sequential", 0, e.dataSize) == [];
      assert e.messages + [] == e.messages;
    } else {
      ChainLog(e, k - 1);
      ChainAdvance(e, k - 1);
    }
  }

  /** A super-step of the lone sequential unit merges its update and asks the router once. */
  lemma SequentialSuperStep(s: State)
    requires s.mode.Member?
    ensures var merged := Apply(s, SequentialUpdate(s));
      merged.mode.Member? &&
      SuperStep(s, [SequentialTask]) == Success((merged, Dispatch(ShouldContinue(merged))))
  {
    SingleUnitStep(s, SequentialTask);
    NextFrontierSingle(SequentialTask, Apply(s, SequentialUpdate(s)));
  }

  /** A step of the sequential chain adds the next message and bumps the counter. */
  lemma SequentialStep(input: State, s: State, steps: nat)
    requires steps >= 1
    requires Reachable(input, s, [SequentialTask], steps)
    requires ResolveMode(input.mode) == Success(SequentialNodes)
    ensures SuperStep(s, [SequentialTask]).Success?
    ensures var next := SuperStep(s, [SequentialTask]).value;
      Reachable(input, next.0, next.1, steps + 1)
  {
    var entered := Entered(input, SequentialNodes);
    ChainAdvance(entered, steps - 1);
    SequentialSuperStep(s);
  }

  /** The branch units of a fan-out to ids 1..n return one update each, in id order. */
  lemma FanOutUnits(s: State, n: nat)
    ensures RunUnits(s, ParallelTasks(n)) == Success(seq(n, i => ParallelNode(s, i + 1)))
  {
    var rs := Results(s, ParallelTasks(n));
    var us := seq(n, i => ParallelNode(s, i + 1));
    assert forall i :: 0 <= i < n ==> rs[i] == Success(us[i]);
    var r := Collect(rs);
    assert r.Success?;
    assert forall i :: 0 <= i < n ==> r.value[i] == us[i];
    assert r.value == us;
    assert RunUnits(s, ParallelTasks(n)) == r;
  }

  /** The fan-out super-step only appends the branch messages, in ascending id order, and schedules nothing. */
  lemma FanOutMerge(s: State, n: nat)
    requires s.mode.Member?
    ensures SuperStep(s, ParallelTasks(n)) ==
      Success((s.(messages := s.messages + Log("parallel", n, s.dataSize)), []))
  {
    FanOutUnits(s, n);
    var us := seq(n, i => ParallelNode(s, i + 1));
    FanOutApply(s, us);
    var merged := ApplyAll(s, us);
    assert merged == s.(messages := s.messages + Log("parallel", n, s.dataSize));
    ParallelTasksEnd(n, merged);
  }

  /** Merging the branch updates of a fan-out only appends the parallel log. */
  lemma FanOutApply(s: State, us: seq<Update>)
    requires forall i :: 0 <= i < |us| ==> us[i] == ParallelNode(s, i + 1)
    ensures ApplyAll(s, us) == s.(messages := s.messages + Log("parallel", |us|, s.dataSize))
  {
    ApplyAllAppendOnly(s, us);
    BranchLog(s, us);
  }

  /** The parallel units of a fan-out schedule nothing. */
  lemma ParallelTasksEnd(n: nat, merged: State)
    requires merged.mode.Member?
    ensures NextFrontier(ParallelTasks(n), merged) == []
  {
    var tasks := ParallelTasks(n);
    assert forall i :: 0 <= i < |tasks| ==> OutEdge(tasks[i].Node()) == ToEnd;
    BranchesEnd(tasks, merged);
  }

  /** The fan-out step of a parallel run reaches the run's end. */
  lemma FanOutStep(input: State, s: State)
    requires Reachable(input, s, ParallelTasks(Max0(input.expand)), 1)
    requires ResolveMode(input.mode) == Success(ParallelNodes)
    requires input.expand > 0
    ensures SuperStep(s, ParallelTasks(Max0(input.expand))).Success?
    ensures var next := SuperStep(s, ParallelTasks(Max0(input.expand))).value;
      Reachable(input, next.0, next.1, 2)
  {
    var n := Max0(input.expand);
    var entered := Entered(input, ParallelNodes);
    assert s == entered;
    FanOutMerge(s, n);
  }

  /** Every super-step from a reachable state reaches the next one, or fails only at entry. */
  lemma SuperStepPreserves(input: State, s: State, frontier: seq<Task>, steps: nat)
    requires Reachable(input, s, frontier, steps)
    requires frontier != []
    requires s.mode.Member? || frontier == [StartTask]
    ensures match SuperStep(s, frontier)
      case Failure(e) => steps == 0 && Outcome(input) == Failure(e) && Steps(input) == 1
      case Success(next) => Reachable(input, next.0, next.1, steps + 1)
  {
    if steps == 0 {
      EntryStep(input);
    } else {
      match ResolveMode(input.mode).value
      case SingleNode =>
      case SequentialNodes =>
        SequentialStep(input, s, steps);
      case ParallelNodes =>
        FanOutStep(input, s);
    }
  }

  /**
   * Run the graph on the caller's input until the frontier is empty. Returns
   * the final state (or the entry node's error) and the number of super-steps.
   */
  method Run(input: State) returns (r: Result<State, RunError>, steps: nat)
    ensures r == Outcome(input)
    ensures steps == Steps(input)
  {
    var s := input;
    var frontier := [StartTask];
    steps := 0;
    while frontier != []
      invariant Reachable(input, s, frontier, steps)
      decreases Max0(input.expand) + 1 - steps
    {
      ReachableBounds(input, s, frontier, steps);
      SuperStepPreserves(input, s, frontier, steps);
      var step := RunSuperStep(s, frontier);
      if step.Failure? {
        return Failure(step.error), steps + 1;
      }
      s, frontier, steps := step.value.0, step.value.1, steps + 1;
      ReachableBounds(input, s, frontier, steps);
    }
    ReachableFinal(input, s, steps);
    r := Success(s);
  }
}
