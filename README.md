# A verified model of the LangGraph benchmark graph

The benchmark graph in `src/react_agent/graph.py` exercises three scenarios:
- a single node;
- a bounded chain of sequential nodes;
- a fan-out of parallel branches.

The graph state is a record of `counter`, `delay`, `data_size`, `expand`, `mode`
and `messages`. The `messages` log is merged by appending. Every other field is
merged by last write wins.

Three node handlers return partial updates:
- the entry node resets the counter, resolves the mode and logs id 0;
- the sequential node bumps the counter and logs the new value;
- the parallel node logs its branch id.

After the entry and sequential nodes, the router `should_continue` either ends
the run, continues the chain, or fans out to `expand` parallel branches.

The Dafny project models this core as follows:

- `wrappers.dfy` (`Wrappers`): `Option` and `Result`.
- `decimal.dfy` (`Decimal`): the decimal text that Python's `str(int)` gives for
  the ids embedded in message content. It comes with a round-trip proof.
- `state.dfy` (`BenchState`): the state record, its defaults, the partial
  update, and the merge policy. `Apply` merges one update. `ApplyAll` merges
  one super-step's updates in unit order.
- `nodes.dfy` (`Nodes`): the payload builder, mode resolution and the three
  handlers. `sequential_node` bumps the counter of its own copy of the state
  in place, so it is a method (`SequentialNode`). `SequentialUpdate` is the
  function that specifies it.
- `router.dfy` (`Router`): `should_continue` as a function to
  `Terminal | NextNode | BranchSet(ids)`.
- `engine.dfy` (`Engine`): the declared wiring as data, and a super-step
  driver that follows it.
  - Each super-step runs every unit of the frontier against the same
    snapshot, merges their updates in ascending unit order, and routes every
    unit whose out-edge is conditional. `SuperStep` is the function and
    `RunSuperStep` the method.
  - `Run` loops over super-steps until the frontier is empty. It is proved to
    return the closed-form `Outcome` and to take `Steps` super-steps.
- `runs.dfy` (`Runs`): whole-run properties of `Outcome`, one lemma per mode,
  plus the invalid-mode run, the default input and a concrete scenario.

Things the model makes explicit:
- The `mode` field holds `None`, a raw string, or an enum member
  (`ModeValue`). `None` and `""` are falsy, and enum members are truthy.
- `BenchmarkMode(x)` returns a member unchanged. On a string it looks the
  member up by value: `"single"`, `"sequential"` or `"parallel"`. Any other
  string is an error (`InvalidModeError`).
- `expand` and `data_size` are unbounded integers, as in Python. A zero or
  negative `expand` gives an empty `range(1, expand + 1)`. A zero or negative
  `data_size` gives an empty `"a" * data_size`. `Max0` states both.

## Model

| member | source | states |
|---|---|---|
| `BenchState.Apply` | src/react_agent/graph.py:45-50 | merging a partial update appends its messages after the old log (old log is a prefix, length grows by the number appended); an overwrite field takes the written value if the update has it and keeps the old one otherwise; a messages-only update changes nothing else |
| `BenchState.ApplyAll` | src/react_agent/graph.py:50 | merging a super-step's updates in unit order leaves the log equal to the old log followed by every unit's messages in unit order |
| `BenchState.ApplyAllKeepsLog` | src/react_agent/graph.py:50 | merging never removes or reorders logged messages: the old log is a prefix of the new one |
| `BenchState.ApplyAllAppendOnly` | src/react_agent/graph.py:45-50 | updates that write only `messages` leave counter, delay, data_size, expand and mode unchanged |
| `BenchState.ApplyAllAdvances` | src/react_agent/graph.py:45-50 | updates that leave the settings and mode alone and never write a counter below the old one keep settings and mode and never lower the counter |
| `BenchState.ApplyAllKeepsResolved` | src/react_agent/graph.py:49 | once `mode` holds an enum member, updates that write only enum members keep it an enum member |
| `Decimal.NatToString` | src/react_agent/graph.py:78 | the decimal text of a natural number is non-empty, all digits, and starts with '0' only for 0 itself |
| `Decimal.ParseNatToString` | src/react_agent/graph.py:78 | reading the digits back gives the number |
| `Decimal.IntToString` | src/react_agent/graph.py:78 | `str(i)` starts with '-' exactly when i is negative and is digits otherwise |
| `Decimal.IntToStringRoundTrip` | src/react_agent/graph.py:90 | the id written into a message's text can be read back, so distinct ids print differently |
| `Nodes.CreateLargeData` | src/react_agent/graph.py:53-54 | the payload has exactly `data_size` characters (none when `data_size <= 0`), all 'a' |
| `Nodes.ModeName` | src/react_agent/graph.py:27-29 | the enum values: "single" belongs exactly to SINGLE_NODE, "sequential" exactly to SEQUENTIAL_NODES, "parallel" exactly to PARALLEL_NODES |
| `Nodes.Falsy` | src/react_agent/graph.py:65 | the truthiness test of `state.mode or ...`: `None` is falsy, an enum member is truthy, a string is falsy exactly when it is empty |
| `Nodes.ResolveMode` | src/react_agent/graph.py:65 | a falsy mode gives SINGLE_NODE, an enum member gives itself, a non-empty string succeeds exactly when it is "single", "sequential" or "parallel" and then gives the member with that value, and every failure is `InvalidModeError` on the offending string |
| `Nodes.ResolveModeName` | src/react_agent/graph.py:27-29 | each member's value resolves back to that member, and distinct members have distinct values |
| `Nodes.NodeContentLayout` | src/react_agent/graph.py:78 | a worker's message text starts with "Hello from " + kind + " node " + the id in decimal + "! Data: ", and the rest is exactly `max(data_size, 0)` 'a' characters |
| `Nodes.NodeContentPayload` | src/react_agent/graph.py:78 | a worker's message content ends with exactly `max(data_size, 0)` filler characters, preceded by a space |
| `Nodes.EntryNode` | src/react_agent/graph.py:57-67 | the entry node fails exactly when mode resolution fails, with that error; otherwise it writes counter 0 and the resolved mode, and exactly one message with id 0 and the greeting, and no other field |
| `Nodes.SequentialUpdate` | src/react_agent/graph.py:70-81 | the sequential node writes counter = old counter + 1 and exactly one message whose id is that new counter and whose content carries the payload; it writes no other field |
| `Nodes.SequentialNode` | src/react_agent/graph.py:70-81 | after bumping the counter of its own copy of the state in place, the node returns the update `SequentialUpdate` specifies |
| `Nodes.ParallelNode` | src/react_agent/graph.py:84-93 | the parallel node writes only `messages`: exactly one message whose id is its overlay's `parallel_id`, never counter or mode |
| `Router.ShouldContinue` | src/react_agent/graph.py:96-111 | SINGLE_NODE ends; SEQUENTIAL_NODES continues to the sequential node iff counter < expand and otherwise ends; PARALLEL_NODES fans out to exactly max(expand, 0) ids, the i-th being i + 1 |
| `Router.FanOutIds` | src/react_agent/graph.py:107-111 | the fan-out's ids are exactly 1..expand, strictly ascending (so without duplicates), and empty iff expand <= 0 |
| `Engine.Dispatch` | src/react_agent/graph.py:108-111 | end schedules nothing, the sequential decision schedules one sequential unit, and a fan-out schedules one parallel unit per id with that id as overlay, in order |
| `Engine.Execute` | src/react_agent/graph.py:117-119 | only the entry unit can fail; only the entry unit writes `mode`, and only with an enum member; other units keep the settings and never lower the counter |
| `Engine.OutEdge` | src/react_agent/graph.py:120-123 | the declared edges: entry and sequential nodes lead to the router, and only the parallel node leads straight to `__end__`; `__start__` leads to the entry node (`StartTask`) |
| `Engine.Collect` | src/react_agent/graph.py:116-125 | a super-step succeeds iff every unit succeeds, giving their updates in unit order; otherwise it reports the error of the lowest-indexed failing unit |
| `Engine.NextFrontierRouted` | src/react_agent/graph.py:121-122 | every unit of the next frontier (`NextFrontier`) is one that the router's decision on the merged state schedules |
| `Engine.NextFrontierComplete` | src/react_agent/graph.py:121-122 | once a unit with a conditional edge (entry or sequential node) has run, every unit the router's decision schedules is in the next frontier |
| `Engine.BranchesEnd` | src/react_agent/graph.py:123 | a frontier whose units all lead to `__end__`, such as the parallel units, schedules nothing |
| `Engine.MergedModeResolved` | src/react_agent/graph.py:121-122 | the router is only reached with `mode` resolved to an enum member |
| `Engine.SuperStep` | src/react_agent/graph.py:116-125 | a super-step fails only if the entry unit is in the frontier; on success the mode is resolved and the old log is a prefix of the new one |
| `Engine.SuperStepMonotone` | src/react_agent/graph.py:116-125 | after the entry step, a super-step never fails, keeps delay, data_size, expand and mode, and never lowers the counter |
| `Engine.ExecuteFrontier` | src/react_agent/graph.py:117-119 | running the frontier's handlers in unit order against one snapshot yields what `RunUnits` specifies |
| `Engine.MergeUpdates` | src/react_agent/graph.py:50 | merging updates one by one in a loop yields `ApplyAll` |
| `Engine.RouteFrontier` | src/react_agent/graph.py:121-123 | asking the router for each unit with a conditional edge yields `NextFrontier` |
| `Engine.RunSuperStep` | src/react_agent/graph.py:116-125 | executing, merging and routing one super-step yields `SuperStep` |
| `Engine.ChainLog` | src/react_agent/graph.py:70-81 | running the sequential node k times from counter 0, merging each update, ends with counter k and appends the closed-form log `Log`: ids 1..k in order, message i carrying the sequential content for id i |
| `Engine.BranchLog` | src/react_agent/graph.py:86-92 | the branch units of a fan-out contribute their messages in ascending id order |
| `Engine.FanOutMerge` | src/react_agent/graph.py:107-111 | the fan-out super-step only appends the branch messages 1..n and leaves an empty frontier |
| `Engine.EntryStep` | src/react_agent/graph.py:120-121 | the first super-step fails exactly with the run's mode error, and otherwise reaches the entered state with the router's frontier |
| `Engine.SequentialStep` | src/react_agent/graph.py:122 | a step of the chain appends the next numbered message and bumps the counter by one |
| `Engine.SuperStepPreserves` | src/react_agent/graph.py:116-125 | every super-step from a reachable state reaches the next reachable state or, in the entry step only, fails with the run's error |
| `Engine.ReachableFinal` | src/react_agent/graph.py:116-125 | when the frontier is empty, the driver's state is the closed-form outcome and its step count is `Steps` |
| `Engine.Run` | src/react_agent/graph.py:114-125 | following the wiring until no unit is left yields exactly `Outcome(input)` in exactly `Steps(input)` super-steps |
| `Runs.InvalidModeRun` | src/react_agent/graph.py:65 | an unrecognised mode string ends the run in its first super-step with that string's error |
| `Runs.SingleRun` | src/react_agent/graph.py:100-101 | single-node mode takes one super-step, leaves counter 0 and appends exactly the entry message |
| `Runs.SequentialRun` | src/react_agent/graph.py:102-106 | sequential mode with expand N takes N + 1 super-steps, ends with counter N and appends N + 1 messages with ids 0..N in order, message k carrying the payload; N <= 0 ends right after entry |
| `Runs.ParallelRun` | src/react_agent/graph.py:107-111 | parallel mode with expand N leaves counter 0 and appends N + 1 messages: the entry message, then ids 1..N, each once, in ascending order; it takes 2 super-steps, or 1 when N <= 0 |
| `BenchState.DefaultState` | src/react_agent/graph.py:45-50 | the dataclass defaults: mode SINGLE_NODE, counter 0, empty log, delay 0, data_size 1000, expand 50 |
| `Runs.DefaultRun` | src/react_agent/graph.py:45-50 | the dataclass defaults give a single-node run that logs only the entry greeting |
| `Runs.SequentialScenario` | src/react_agent/graph.py:70-81 | mode "sequential", data_size 5, expand 3 ends with counter 3 and ids 0..3 in order, and message 1's content ends with exactly "aaaaa" after a space |

## Left out

- `asyncio.sleep(state.delay)` (lines 72 and 85) only waits. The handlers leave it out, and `delay` is carried but never read.
- `RunnableConfig` and `Configuration` (lines 15-16) are not modelled. No handler reads its `config` argument (lines 57, 70, 84 and 96 accept it and never use it), and `Configuration.delay` is only declared.
- The LangGraph runtime is not part of this model: `StateGraph`, `Send`, `.compile`, channel machinery, task scheduling and checkpointing. Only the wiring of lines 116-125 is modelled, as data: `OutEdge`, `StartTask` and `Dispatch`.
- Parallel branches run concurrently in the real runtime, and their completion order is not modelled. The driver fixes ascending unit order, and hence ascending branch id, for the merge. No permutation lemma covers other completion orders.
- LangGraph rejects two writes to one last-value channel in the same step. That conflict check is not modelled. `FanOutMerge` and `SuperStepMonotone` show instead that the only multi-unit super-step, the fan-out, writes nothing but `messages`.
- What the runtime does with the siblings of a failing unit is not modelled. The model stops the super-step at the first failure (`Collect`) and ends the run with that error. In the model, given the overlay simplification for `parallel_node` below, only the entry node can fail, and it is always alone in its super-step, so stopping at the first failure loses nothing. As written, `parallel_node` reads `delay` as an attribute and `parallel_id` by subscript on one object, so in the runtime a parallel unit could raise beside its siblings; that failure is not modelled.
- The error the enum raises is Python's `ValueError`. The model keeps only the offending string, as `InvalidModeError`.
- `Router.ShouldContinue`: requires `mode` to hold an enum member. If called on an unresolved value, the Python `match` would fall through and return `None`. The wiring never does that, because the router runs only after the entry node has stored a member.
- `parallel_node` reads `parallel_id` by subscript and `delay` and `data_size` as attributes of one object (lines 85-90). How LangGraph coerces a `Send` overlay into that object is not modelled. The model passes the shared state and the overlay's `parallel_id` as two arguments, `ParallelNode(s, parallelId)`.
- The router's `Literal[...]` return annotation (line 98) does not include the list the fan-out returns. The tagged `Router.Route` datatype replaces it.
- The caller can only put `None`, a string or an enum member in `mode` (`ModeValue`). Other Python values (such as `0` or a list) are not modelled.
- `NextFrontier` concatenates what each routed unit schedules. LangGraph would merge two plain edges to the same node into one unit; that never arises here, because every frontier with a routed unit holds exactly one unit.
- LangGraph's per-invocation bound on super-steps, `recursion_limit`, is not modelled. It is set in the caller's config, not in graph.py, and is 25 by default. `Engine.Run` and `Runs.SequentialRun` assume no such bound: under that default a sequential run with many steps, such as one with the dataclass default `expand = 50`, ends with `GraphRecursionError` instead of the outcome the model gives.
