/**
 * The benchmark graph's state record and its per-field merge policy:
 * `messages` is appended to (`operator.add`), every other field is
 * overwritten by the last value written.
 */
module BenchState {
  import opened Wrappers

  /** The length Python gives to `range(1, n + 1)` and to `"a" * n`: never negative. */
  function Max0(n: int): (r: nat)
    ensures n > 0 ==> r == n
    ensures n <= 0 ==> r == 0
  {
    if n > 0 then n else 0
  }

  /** The three benchmark scenarios; their Python values are "single", "sequential", "parallel". */
  datatype BenchmarkMode = SingleNode | SequentialNodes | ParallelNodes

  /**
   * What the `mode` field can hold: `None` from the caller, a raw string from
   * the caller, or an enum member (the field's default and the entry node's output).
   */
  datatype ModeValue = Absent | Text(text: string) | Member(m: BenchmarkMode)

  datatype Message = Message(id: int, content: string)

  datatype State = State(
    counter: int,
    delay: int,
    dataSize: int,
    expand: int,
    mode: ModeValue,
    messages: seq<Message>)

  /**
   * The dataclass defaults: a single-node run that starts from counter 0 with
   * an empty log, no delay, a 1000-character payload and an expansion of 50.
   */
  function DefaultState(): (s: State)
    ensures s.mode == Member(SingleNode)
    ensures s.counter == 0 && s.messages == []
    ensures s.delay == 0 && s.dataSize == 1000 && s.expand == 50
  {
    State(0, 0, 1000, 50, Member(SingleNode), [])
  }

  /**
   * A node's partial update, the dict it returns: `None` for an overwrite
   * field the dict leaves out; `messages` is the contribution to append
   * (empty when the dict has no "messages" key, which `add` treats alike).
   */
  datatype Update = Update(
    counter: Option<int>,
    delay: Option<int>,
    dataSize: Option<int>,
    expand: Option<int>,
    mode: Option<ModeValue>,
    messages: seq<Message>)

  /** An update that writes no overwrite field, only appends messages. */
  predicate AppendOnly(u: Update) {
    u.counter.None? && u.delay.None? && u.dataSize.None? && u.expand.None? && u.mode.None?
  }

  /**
   * An update that leaves the run's settings and mode alone and writes
   * `counter` only with a value of at least `floor`.
   */
  predicate Advances(u: Update, floor: int) {
    && u.delay.None? && u.dataSize.None? && u.expand.None? && u.mode.None?
    && (u.counter.Some? ==> u.counter.value >= floor)
  }

  /** Merge one partial update into the state: append for `messages`, last write wins elsewhere. */
  function Apply(s: State, u: Update): (r: State)
    ensures |r.messages| == |s.messages| + |u.messages|
    ensures r.messages[..|s.messages|] == s.messages
    ensures r.messages[|s.messages|..] == u.messages
    ensures u.counter.Some? ==> r.counter == u.counter.value
    ensures u.counter.None? ==> r.counter == s.counter
    ensures u.delay.Some? ==> r.delay == u.delay.value
    ensures u.delay.None? ==> r.delay == s.delay
    ensures u.dataSize.Some? ==> r.dataSize == u.dataSize.value
    ensures u.dataSize.None? ==> r.dataSize == s.dataSize
    ensures u.expand.Some? ==> r.expand == u.expand.value
    ensures u.expand.None? ==> r.expand == s.expand
    ensures u.mode.Some? ==> r.mode == u.mode.value
    ensures u.mode.None? ==> r.mode == s.mode
    ensures AppendOnly(u) ==> r == s.(messages := r.messages)
  {
    State(
      u.counter.GetOr(s.counter),
      u.delay.GetOr(s.delay),
      u.dataSize.GetOr(s.dataSize),
      u.expand.GetOr(s.expand),
      u.mode.GetOr(s.mode),
      s.messages + u.messages)
  }

  /** All messages contributed by `us`, in order. */
  function Flatten(us: seq<Update>): (log: seq<Message>)
    decreases |us|
  {
    if us == [] then [] else Flatten(us[..|us| - 1]) + us[|us| - 1].messages
  }

  /** Merge the updates of one super-step in ascending unit order. */
  function ApplyAll(s: State, us: seq<Update>): (r: State)
    ensures r.messages == s.messages + Flatten(us)
    decreases |us|
  {
    if us == [] then s
    else
      var prev := ApplyAll(s, us[..|us| - 1]);
      var r := Apply(prev, us[|us| - 1]);
      assert r.messages == r.messages[..|prev.messages|] + r.messages[|prev.messages|..];
      r
  }

  /** Merging never removes or reorders logged messages: the old log is a prefix of the new one. */
  lemma ApplyAllKeepsLog(s: State, us: seq<Update>)
    ensures |ApplyAll(s, us).messages| >= |s.messages|
    ensures ApplyAll(s, us).messages[..|s.messages|] == s.messages
  {
    assert (s.messages + Flatten(us))[..|s.messages|] == s.messages;
  }

  /** Updates that only append leave every overwrite field as it was. */
  lemma {:induction false} ApplyAllAppendOnly(s: State, us: seq<Update>)
    requires forall i :: 0 <= i < |us| ==> AppendOnly(us[i])
    ensures ApplyAll(s, us) == s.(messages := s.messages + Flatten(us))
    decreases |us|
  {
    if us != [] {
      ApplyAllAppendOnly(s, us[..|us| - 1]);
    }
  }

  /** Updates that advance from `s.counter` keep the settings and mode and never lower the counter. */
  lemma {:induction false} ApplyAllAdvances(s: State, us: seq<Update>)
    requires forall i :: 0 <= i < |us| ==> Advances(us[i], s.counter)
    ensures ApplyAll(s, us).counter >= s.counter
    ensures ApplyAll(s, us).mode == s.mode
    ensures ApplyAll(s, us).delay == s.delay
    ensures ApplyAll(s, us).dataSize == s.dataSize
    ensures ApplyAll(s, us).expand == s.expand
    decreases |us|
  {
    if us != [] {
      ApplyAllAdvances(s, us[..|us| - 1]);
    }
  }

  /** Once the mode is resolved, updates that write only resolved modes keep it resolved. */
  lemma {:induction false} ApplyAllKeepsResolved(s: State, us: seq<Update>)
    requires s.mode.Member?
    requires forall i :: 0 <= i < |us| ==> us[i].mode.Some? ==> us[i].mode.value.Member?
    ensures ApplyAll(s, us).mode.Member?
    decreases |us|
  {
    if us != [] {
      ApplyAllKeepsResolved(s, us[..|us| - 1]);
    }
  }
}
