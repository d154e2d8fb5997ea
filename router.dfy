/**
 * `should_continue`, the conditional edge after the entry and sequential
 * nodes: end the run, go to the sequential node, or fan out to parallel branches.
 */
module Router {
  import opened BenchState

  /**
   * The routing decision: end the run, go to the sequential node, or send
   * one parallel unit per id in `parallelIds`, each with that id as its overlay.
   */
  datatype Route = Terminal | NextNode | BranchSet(parallelIds: seq<int>)

  /**
   * The decision depends only on the resolved mode, the counter and `expand`.
   * The wiring calls it only after the entry node has resolved the mode.
   */
  function ShouldContinue(s: State): (r: Route)
    requires s.mode.Member?
    ensures s.mode.m == SingleNode ==> r == Terminal
    ensures s.mode.m == SequentialNodes ==> (r == NextNode || r == Terminal)
    ensures s.mode.m == SequentialNodes ==> (r == NextNode <==> s.counter < s.expand)
    ensures s.mode.m == ParallelNodes ==> r.BranchSet? && |r.parallelIds| == Max0(s.expand)
    ensures s.mode.m == ParallelNodes ==>
      forall i :: 0 <= i < |r.parallelIds| ==> r.parallelIds[i] == i + 1
  {
    match s.mode.m
    case SingleNode => Terminal
    case SequentialNodes => if s.counter < s.expand then NextNode else Terminal
    case ParallelNodes => BranchSet(seq(Max0(s.expand), i => i + 1))
  }

  /**
   * The fan-out dispatches exactly the branch ids 1..expand, each once, in
   * ascending order; with `expand <= 0` it dispatches nothing.
   */
  lemma FanOutIds(s: State)
    requires s.mode == Member(ParallelNodes)
    ensures var ids := ShouldContinue(s).parallelIds;
      && (forall k :: k in ids <==> 1 <= k <= s.expand)
      && (forall i, j :: 0 <= i < j < |ids| ==> ids[i] < ids[j])
      && (s.expand <= 0 <==> ids == [])
  {
    var ids := ShouldContinue(s).parallelIds;
    forall k | 1 <= k <= s.expand
      ensures k in ids
    {
      assert ids[k - 1] == k;
    }
  }
}
