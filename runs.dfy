/**
 * What whole runs of the benchmark graph yield, stated on the closed-form
 * outcome that `Engine.Run` is proved to compute.
 */
module Runs {
  import opened Wrappers
  import opened BenchState
  import opened Nodes
  import opened Engine

  /** An unrecognised mode string ends the run in the entry super-step with that string's error. */
  lemma InvalidModeRun(input: State, t: string)
    requires input.mode == Text(t)
    requires t !in {"", "single", "sequential", "parallel"}
    ensures Outcome(input) == Failure(InvalidModeError(t))
    ensures Steps(input) == 1
  {
  }

  /** Single-node mode: one super-step, counter 0, and exactly the entry message appended. */
  lemma SingleRun(input: State)
    requires ResolveMode(input.mode) == Success(SingleNode)
    ensures Outcome(input).Success?
    ensures var f := Outcome(input).value;
      && f.counter == 0
      && f.mode == Member(SingleNode)
      && f.messages == input.messages + [Message(0, EntryGreeting)]
    ensures Steps(input) == 1
  {
  }

  /**
   * Sequential mode with `expand = N`: N + 1 super-steps, final counter N, and
   * N + 1 new messages with ids 0, 1, ..., N in that order, message k carrying
   * the payload; with N <= 0 the run ends right after entry.
   */
  lemma SequentialRun(input: State)
    requires ResolveMode(input.mode) == Success(SequentialNodes)
    ensures Outcome(input).Success?
    ensures var f, n, k := Outcome(input).value, Max0(input.expand), |input.messages|;
      var added := f.messages[k..];
      && f.counter == n
      && f.mode == Member(SequentialNodes)
      && |f.messages| == k + n + 1
      && f.messages[..k] == input.messages
      && (forall i :: 0 <= i <= n ==> added[i].id == i)
      && (forall i :: 1 <= i <= n ==> added[i].content == NodeContent("sequential", i, input.dataSize))
    ensures Steps(input) == Max0(input.expand) + 1
  {
    var f, n, k := Outcome(input).value, Max0(input.expand), |input.messages|;
    var log := Log("sequential", n, input.dataSize);
    assert f.messages == input.messages + [Message(0, EntryGreeting)] + log;
    assert f.messages[k..] == [Message(0, EntryGreeting)] + log;
  }

  /**
   * Parallel mode with `expand = N`: one fan-out from entry, counter left at 0,
   * N + 1 new messages whose non-entry ids are 1..N, each once, in ascending
   * order; the fan-out step is skipped when N <= 0.
   */
  lemma ParallelRun(input: State)
    requires ResolveMode(input.mode) == Success(ParallelNodes)
    ensures Outcome(input).Success?
    ensures var f, n, k := Outcome(input).value, Max0(input.expand), |input.messages|;
      && f.counter == 0
      && f.mode == Member(ParallelNodes)
      && |f.messages| == k + n + 1
      && f.messages[..k] == input.messages
      && f.messages[k].id == 0
      && (forall i :: k < i < |f.messages| ==> 1 <= f.messages[i].id <= n)
      && (forall i, j :: k < i < j < |f.messages| ==> f.messages[i].id < f.messages[j].id)
      && (forall id :: 1 <= id <= n ==> f.messages[k..][id].id == id)
    ensures Steps(input) == if input.expand > 0 then 2 else 1
  {
    var f, n, k := Outcome(input).value, Max0(input.expand), |input.messages|;
    var log := Log("parallel", n, input.dataSize);
    assert f.messages == input.messages + [Message(0, EntryGreeting)] + log;
    forall i | k < i < |f.messages|
      ensures f.messages[i].id == i - k
    {
      assert f.messages[i] == log[i - k - 1];
    }
  }

  /** The dataclass defaults describe a single-node run: only the entry greeting is logged. */
  lemma DefaultRun()
    ensures Outcome(DefaultState()) == Success(DefaultState().(messages := [Message(0, EntryGreeting)]))
  {
    assert [] + [Message(0, EntryGreeting)] == [Message(0, EntryGreeting)];
  }

  /**
   * mode "sequential", delay 0, data_size 5, expand 3: ids 0..3 in order,
   * counter 3, and message 1 ends with exactly five filler characters.
   */
  lemma SequentialScenario()
    ensures var input := State(0, 0, 5, 3, Text("sequential"), []);
      && Outcome(input).Success?
      && var f := Outcome(input).value;
      && f.counter == 3
      && |f.messages| == 4
      && (forall i :: 0 <= i < 4 ==> f.messages[i].id == i)
      && var c := f.messages[1].content;
      && |c| > 5 && c[|c| - 5..] == "aaaaa" && c[|c| - 6] == ' '
  {
    var input := State(0, 0, 5, 3, Text("sequential"), []);
    assert ResolveMode(input.mode) == Success(SequentialNodes);
    SequentialRun(input);
    var f := Outcome(input).value;
    assert f.messages[0..] == f.messages;
    NodeContentPayload("sequential", 1, 5);
    assert CreateLargeData(5) == "aaaaa" by {
      assert CreateLargeData(1) == "a";
      assert CreateLargeData(3) == "aaa";
    }
  }
}
