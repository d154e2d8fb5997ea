/**
 * The graph's three node handlers and what they rely on: the filler payload
 * and the resolution of the raw `mode` input into a `BenchmarkMode`.
 * `asyncio.sleep(state.delay)` only waits, so the handlers leave it out.
 */
module Nodes {
  import opened Wrappers
  import opened BenchState
  import Decimal

  /** `BenchmarkMode(value)` rejected `value`: the run ends with this error. */
  datatype RunError = InvalidModeError(value: string)

  /** `create_large_data`: `"a" * data_size`, empty for a size of zero or less. */
  function CreateLargeData(dataSize: int): (r: string)
    ensures |r| == Max0(dataSize)
    ensures forall i :: 0 <= i < |r| ==> r[i] == 'a'
    decreases dataSize
  {
    if dataSize <= 0 then "" else CreateLargeData(dataSize - 1) + "a"
  }

  /** The enum value of each member: the three members carry the three distinct values. */
  function ModeName(m: BenchmarkMode): (name: string)
    ensures name == "single" <==> m == SingleNode
    ensures name == "sequential" <==> m == SequentialNodes
    ensures name == "parallel" <==> m == ParallelNodes
  {
    match m
    case SingleNode => "single"
    case SequentialNodes => "sequential"
    case ParallelNodes => "parallel"
  }

  /** Python truthiness of the `mode` field: `None` and `""` are false, enum members are true. */
  predicate Falsy(v: ModeValue)
    ensures v.Absent? ==> Falsy(v)
    ensures v.Member? ==> !Falsy(v)
    ensures v.Text? ==> (Falsy(v) <==> |v.text| == 0)
  {
    v.Absent? || v == Text("")
  }

  /**
   * How the entry node turns the raw `mode` into an enum member: a falsy
   * value falls back to SINGLE_NODE, a member stands for itself, and a string
   * is looked up among the members' values, failing on any other string.
   */
  function ResolveMode(v: ModeValue): (r: Result<BenchmarkMode, RunError>)
    ensures Falsy(v) ==> r == Success(SingleNode)
    ensures v.Member? ==> r == Success(v.m)
    ensures v.Text? && v.text != "" ==>
      (r.Success? <==> v.text in {"single", "sequential", "parallel"})
    ensures v.Text? && v.text != "" && r.Success? ==> ModeName(r.value) == v.text
    ensures r.Failure? ==> v.Text? && r.error == InvalidModeError(v.text)
  {
    match v
    case Absent => Success(SingleNode)
    case Member(m) => Success(m)
    case Text(t) =>
      if t == "" then Success(SingleNode)
      else if t == "single" then Success(SingleNode)
      else if t == "sequential" then Success(SequentialNodes)
      else if t == "parallel" then Success(ParallelNodes)
      else Failure(InvalidModeError(t))
  }

  /** Every member's value resolves back to that member, and distinct members have distinct values. */
  lemma ResolveModeName(m: BenchmarkMode, m': BenchmarkMode)
    ensures ResolveMode(Text(ModeName(m))) == Success(m)
    ensures ModeName(m) == ModeName(m') ==> m == m'
  {
  }

  const EntryGreeting: string := "Hello from entry node!"

  /**
   * The text a worker node logs: "Hello from <kind> node <id>! Data: " with the
   * id in decimal, followed by the payload of `data_size` filler characters.
   */
  function NodeContent(kind: string, id: int, dataSize: int): string {
    "Hello from " + kind + " node " + Decimal.IntToString(id) + "! Data: " + CreateLargeData(dataSize)
  }

  /**
   * A worker's message starts with the greeting naming its kind and its id in
   * decimal, and the rest is `data_size` filler characters.
   */
  lemma NodeContentLayout(kind: string, id: int, dataSize: int)
    ensures var r := NodeContent(kind, id, dataSize);
      var head := "Hello from " + kind + " node " + Decimal.IntToString(id) + "! Data: ";
      && |r| == |head| + Max0(dataSize)
      && r[..|head|] == head
      && forall i :: |head| <= i < |r| ==> r[i] == 'a'
  {
    var head := "Hello from " + kind + " node " + Decimal.IntToString(id) + "! Data: ";
    var p := CreateLargeData(dataSize);
    assert NodeContent(kind, id, dataSize) == head + p;
    assert (head + p)[..|head|] == head;
  }

  /** A worker's message ends with exactly `data_size` filler characters, right after a space. */
  lemma NodeContentPayload(kind: string, id: int, dataSize: int)
    ensures var r, p := NodeContent(kind, id, dataSize), CreateLargeData(dataSize);
      && |r| > |p|
      && r[|r| - |p|..] == p
      && r[|r| - |p| - 1] == ' '
  {
    var head := "Hello from " + kind + " node " + Decimal.IntToString(id) + "! Data: ";
    var p := CreateLargeData(dataSize);
    assert head[|head| - 1] == ' ';
    assert NodeContent(kind, id, dataSize) == head + p;
    assert (head + p)[|head|..] == p;
  }

  /**
   * `entry_node`: resets the counter to 0, stores the resolved mode and logs
   * the greeting with id 0; an unrecognised mode makes it fail instead.
   */
  function EntryNode(s: State): (r: Result<Update, RunError>)
    ensures r.Failure? <==> ResolveMode(s.mode).Failure?
    ensures r.Failure? ==> r.error == ResolveMode(s.mode).error
    ensures r.Success? ==>
      && r.value.counter == Some(0)
      && r.value.mode == Some(Member(ResolveMode(s.mode).value))
      && r.value.delay.None? && r.value.dataSize.None? && r.value.expand.None?
      && |r.value.messages| == 1
      && r.value.messages[0].id == 0
      && r.value.messages[0].content == EntryGreeting
  {
    match ResolveMode(s.mode)
    case Failure(e) => Failure(e)
    case Success(m) =>
      Success(Update(Some(0), None, None, None, Some(Member(m)), [Message(0, EntryGreeting)]))
  }

  /**
   * What `sequential_node` returns: the counter one past the snapshot's and
   * one message tagged with that new counter, carrying the payload.
   */
  function SequentialUpdate(s: State): (u: Update)
    ensures u.counter == Some(s.counter + 1)
    ensures Advances(u, s.counter)
    ensures |u.messages| == 1
    ensures u.messages[0].id == s.counter + 1
    ensures u.messages[0].content == NodeContent("sequential", s.counter + 1, s.dataSize)
  {
    var next := s.counter + 1;
    Update(Some(next), None, None, None, None, [Message(next, NodeContent("sequential", next, s.dataSize))])
  }

  /**
   * `sequential_node`: bumps the counter of its own copy of the state in
   * place, then reports the new counter and logs a message tagged with it.
   */
  method SequentialNode(s: State) returns (u: Update)
    ensures u == SequentialUpdate(s)
  {
    var state := s;
    state := state.(counter := state.counter + 1);
    u := Update(
      Some(state.counter), None, None, None, None,
      [Message(state.counter, NodeContent("sequential", state.counter, state.dataSize))]);
  }

  /**
   * `parallel_node` for the branch whose `Send` overlay carries `parallelId`:
   * it only appends one message tagged with that id, never the counter or mode.
   */
  function ParallelNode(s: State, parallelId: int): (u: Update)
    ensures AppendOnly(u)
    ensures |u.messages| == 1
    ensures u.messages[0].id == parallelId
    ensures u.messages[0].content == NodeContent("parallel", parallelId, s.dataSize)
  {
    Update(None, None, None, None, None, [Message(parallelId, NodeContent("parallel", parallelId, s.dataSize))])
  }
}
