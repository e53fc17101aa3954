/** The graph main.py builds and compiles: entry `predict`, edges
    `predict -> human_review -> END`, an interrupt before `human_review`, and an
    in-memory checkpointer keyed by `thread_id`. Only this fixed chain is
    modelled, not a general graph engine. */
module Workflow {
  import opened Wrappers
  import opened Agent

  /** The two nodes added to the builder. */
  datatype Node = PredictStep | HumanReviewStep

  /** What a checkpoint says runs next: a node, or `END`. */
  datatype Next = At(node: Node) | End

  /** A checkpoint: the latest state snapshot of a thread and its pending next node. */
  datatype Checkpoint = Checkpoint(values: AgentState, next: Next)

  /** What one call of the engine produced: the checkpoint it stored last and
      the nodes it executed, in order (one streamed event per node). */
  datatype RunResult = RunResult(checkpoint: Checkpoint, executed: seq<Node>)

  /** Why a checkpoint operation did nothing. `UnknownThread`: the thread has no
      checkpoint. `AlreadyCompleted`: the thread is at `END`, so a resume has
      nothing to run; it stands for an empty stream, not a raised error. */
  datatype Error = UnknownThread | AlreadyCompleted

  /** The control state of one thread, as seen between calls. */
  datatype Phase = NoRun | PausedBefore(node: Node) | Completed

  /** The entry point. */
  const Entry: Node := PredictStep

  /** The single outgoing edge of each node. */
  function Successor(n: Node): Next {
    match n
    case PredictStep => At(HumanReviewStep)
    case HumanReviewStep => End
  }

  /** The nodes listed in `interrupt_before`. */
  predicate InterruptBefore(n: Node) {
    n == HumanReviewStep
  }

  /** The node function registered for each node. */
  function Execute(n: Node, s: AgentState): Update {
    match n
    case PredictStep => Predict(s)
    case HumanReviewStep => HumanReview(s)
  }

  /** How many nodes lie between `next` and `END` along the chain. */
  function Remaining(next: Next): nat {
    match next
    case End => 0
    case At(PredictStep) => 2
    case At(HumanReviewStep) => 1
  }

  /** `path` is the sequence of nodes met when following edges from `start`
      up to (not including) `stop`. */
  predicate Follows(start: Next, path: seq<Node>, stop: Next)
    decreases |path|
  {
    if path == [] then start == stop
    else start == At(path[0]) && Follows(Successor(path[0]), path[1..], stop)
  }

  /** The state after executing the nodes of `path` one after the other from `s`,
      merging each node's partial update before the next node runs. */
  function Apply(s: AgentState, path: seq<Node>): AgentState
    decreases |path|
  {
    if path == [] then s else Apply(Merge(s, Execute(path[0], s)), path[1..])
  }

  /** A pending next node at which a run may rest between calls. */
  predicate Stopped(next: Next) {
    next == End || InterruptBefore(next.node)
  }

  /** The engine's step loop from `next`: run the pending node, merge its update,
      follow its edge, and repeat until `END` or a node flagged interrupt-before.
      A resumed run (`stream(None, ...)`) executes the node it was paused before
      instead of stopping at it again. */
  function Run(s: AgentState, next: Next, resuming: bool): (r: RunResult)
    decreases Remaining(next)
    ensures Stopped(r.checkpoint.next)
    ensures Follows(next, r.executed, r.checkpoint.next)
    ensures r.checkpoint.values == Apply(s, r.executed)
    ensures |r.executed| + Remaining(r.checkpoint.next) == Remaining(next)
    ensures forall i :: 0 <= i < |r.executed| && (i > 0 || !resuming) ==> !InterruptBefore(r.executed[i])
    ensures resuming && next.At? ==> r.executed != [] && r.executed[0] == next.node
    ensures !resuming && Stopped(next) ==> r.executed == [] && r.checkpoint.next == next
  {
    match next
    case End => RunResult(Checkpoint(s, End), [])
    case At(n) =>
      if InterruptBefore(n) && !resuming then RunResult(Checkpoint(s, next), [])
      else
        var rest := Run(Merge(s, Execute(n, s)), Successor(n), false);
        RunResult(rest.checkpoint, [n] + rest.executed)
  }

  /** The state a start call runs from: `{number}` alone on a fresh thread, or
      `{number}` merged into the stored values (other keys keep their values). */
  function StartInput(prior: Option<Checkpoint>, n: int): AgentState {
    match prior
    case None => Initial(n)
    case Some(c) => Merge(c.values, NumberUpdate(n))
  }

  /** `graph.stream({"number": n}, config)`: a new run from the entry node.
      It executes exactly `predict` and pauses before `human_review`, with
      `number` the input and `prediction` its parity; the other keys are unset
      on a fresh thread and keep the thread's earlier values otherwise. */
  function Started(prior: Option<Checkpoint>, n: int): (r: RunResult)
    ensures r.executed == [PredictStep]
    ensures r.checkpoint.next == At(HumanReviewStep)
    ensures PhaseOf(Some(r.checkpoint)) == PausedBefore(HumanReviewStep)
    ensures r.checkpoint.values.number == n
    ensures r.checkpoint.values.prediction == Some(ParityOf(n))
    ensures prior.None? ==> r.checkpoint.values.humanFeedback == None
                            && r.checkpoint.values.finalResult == None
    ensures prior.Some? ==> r.checkpoint.values.humanFeedback == prior.value.values.humanFeedback
                            && r.checkpoint.values.finalResult == prior.value.values.finalResult
  {
    Run(StartInput(prior, n), At(Entry), false)
  }

  /** `graph.update_state(config, {"human_feedback": feedback})` on a stored
      checkpoint: only `human_feedback` changes, and the pending node stays. */
  function WithFeedback(c: Checkpoint, feedback: string): (r: Checkpoint)
    ensures r.next == c.next
    ensures r.values == c.values.(humanFeedback := Some(feedback))
  {
    Checkpoint(Merge(c.values, FeedbackUpdate(feedback)), c.next)
  }

  /** `graph.stream(None, config)` on a stored checkpoint: continue from the
      pending node. A thread that already reached `END` has nothing to run;
      `AlreadyCompleted` records that the stream was empty, not an error. */
  function Resumed(c: Checkpoint): (r: Result<RunResult, Error>)
    ensures r.Failure? <==> c.next == End
    ensures r.Failure? ==> r.error == AlreadyCompleted
  {
    if c.next == End then Failure(AlreadyCompleted) else Success(Run(c.values, c.next, true))
  }

  /** The phase a stored checkpoint (or its absence) stands for. */
  function PhaseOf(c: Option<Checkpoint>): Phase {
    match c
    case None => NoRun
    case Some(ck) =>
      match ck.next
      case End => Completed
      case At(n) => PausedBefore(n)
  }

  /** `update_state` never changes the thread's phase, and writing the same
      feedback twice is the same as writing it once. */
  lemma FeedbackKeepsControl(c: Checkpoint, feedback: string)
    ensures PhaseOf(Some(WithFeedback(c, feedback))) == PhaseOf(Some(c))
    ensures WithFeedback(WithFeedback(c, feedback), feedback) == WithFeedback(c, feedback)
  {
  }

  /** Resuming a thread paused before `human_review` runs that node exactly once,
      merges its `final_result` into the stored values and reaches `END`. */
  lemma {:induction false} ResumeRunsReviewOnce(c: Checkpoint)
    requires c.next == At(HumanReviewStep)
    ensures Resumed(c) == Success(RunResult(Checkpoint(Merge(c.values, HumanReview(c.values)), End),
                                            [HumanReviewStep]))
  {
    var r := Run(c.values, c.next, true);
    assert r.executed != [] && r.executed[0] == HumanReviewStep;
    assert Follows(End, r.executed[1..], r.checkpoint.next);
    assert |r.executed| + Remaining(r.checkpoint.next) == 1;
    assert r.executed == [HumanReviewStep];
    assert r.checkpoint.next == End;
    assert r.checkpoint.values == Apply(c.values, [HumanReviewStep]);
  }

  /** The whole human-in-the-loop cycle on one fresh thread: start with `n`,
      record `feedback`, resume. The stored result confirms the parity of `n`
      when the feedback is "confirm" and names the other parity otherwise. */
  lemma FeedbackCycle(n: int, feedback: string)
    ensures var paused := Started(None, n).checkpoint;
      var r := Resumed(WithFeedback(paused, feedback));
      && r.Success?
      && r.value.checkpoint.next == End
      && r.value.checkpoint.values.number == n
      && r.value.checkpoint.values.prediction == Some(ParityOf(n))
      && r.value.checkpoint.values.humanFeedback == Some(feedback)
      && r.value.checkpoint.values.finalResult ==
           if feedback == ConfirmWord then Some(ConfirmedPrefix + ParityOf(n))
           else Some(CorrectedPrefix + ParityOf(n + 1))
  {
  }

  /** The in-memory checkpointer (`MemorySaver`): the latest checkpoint of every
      thread that has been started, keyed by `thread_id`. */
  class CheckpointStore {
    var checkpoints: map<string, Checkpoint>

    /** Between calls every thread rests at `END` or before an interrupt node,
        holds a prediction, and holds a final result once it is at `END`. */
    ghost predicate Valid()
      reads this
    {
      forall t :: t in checkpoints ==>
        && Stopped(checkpoints[t].next)
        && checkpoints[t].values.prediction.Some?
        && (checkpoints[t].next == End ==> checkpoints[t].values.finalResult.Some?)
    }

    constructor ()
      ensures Valid() && checkpoints == map[]
    {
      checkpoints := map[];
    }

    /** `graph.get_state(config)`: the thread's latest checkpoint, present
        exactly when the thread was started, and resting at `END` or before an
        interrupt node. */
    function GetState(thread: string): (c: Option<Checkpoint>)
      reads this
      ensures c.Some? <==> thread in checkpoints
      ensures c.Some? ==> c.value == checkpoints[thread]
      ensures Valid() && c.Some? ==> Stopped(c.value.next) && c.value.values.prediction.Some?
      ensures Valid() && c.Some? && c.value.next == End ==> c.value.values.finalResult.Some?
    {
      if thread in checkpoints then Some(checkpoints[thread]) else None
    }

    /** The thread's control state: in a valid store, not started, paused
        before `human_review`, or completed, and nothing else. */
    function ThreadPhase(thread: string): (p: Phase)
      reads this
      ensures Valid() ==> p in {NoRun, PausedBefore(HumanReviewStep), Completed}
      ensures p == NoRun <==> thread !in checkpoints
    {
      PhaseOf(GetState(thread))
    }

    /** Start (or restart) `thread` with `{"number": number}`: runs `predict`
        and pauses before `human_review`; no other thread's checkpoint changes. */
    method Start(thread: string, number: int) returns (executed: seq<Node>)
      requires Valid()
      modifies this
      ensures Valid()
      ensures checkpoints == old(checkpoints)[thread := Started(old(GetState(thread)), number).checkpoint]
      ensures executed == [PredictStep]
      ensures ThreadPhase(thread) == PausedBefore(HumanReviewStep)
      ensures forall t :: t != thread ==> GetState(t) == old(GetState(t))
    {
      var r := Started(GetState(thread), number);
      checkpoints := checkpoints[thread := r.checkpoint];
      executed := r.executed;
    }

    /** Record `human_feedback` on a started thread without advancing it;
        an unknown thread is reported and nothing changes. */
    method UpdateFeedback(thread: string, feedback: string) returns (r: Result<(), Error>)
      requires Valid()
      modifies this
      ensures Valid()
      ensures r.Failure? <==> old(GetState(thread)).None?
      ensures r.Failure? ==> r.error == UnknownThread && checkpoints == old(checkpoints)
      ensures r.Success? ==>
        checkpoints == old(checkpoints)[thread := WithFeedback(old(checkpoints)[thread], feedback)]
      ensures ThreadPhase(thread) == old(ThreadPhase(thread))
      ensures forall t :: t != thread ==> GetState(t) == old(GetState(t))
    {
      if thread !in checkpoints {
        return Failure(UnknownThread);
      }
      FeedbackKeepsControl(checkpoints[thread], feedback);
      checkpoints := checkpoints[thread := WithFeedback(checkpoints[thread], feedback)];
      r := Success(());
    }

    /** Resume `thread` from its pending node. An unknown thread, or one that
        already reached `END`, is reported and its checkpoint does not change. */
    method Resume(thread: string) returns (r: Result<seq<Node>, Error>)
      requires Valid()
      modifies this
      ensures Valid()
      ensures old(GetState(thread)).None? ==> r == Failure(UnknownThread)
      ensures old(ThreadPhase(thread)) == Completed ==> r == Failure(AlreadyCompleted)
      ensures r.Failure? ==> checkpoints == old(checkpoints)
      ensures r.Success? ==>
        var res := Resumed(old(checkpoints)[thread]);
        res.Success? && r.value == res.value.executed
        && checkpoints == old(checkpoints)[thread := res.value.checkpoint]
      ensures old(ThreadPhase(thread)) == PausedBefore(HumanReviewStep) ==>
        r == Success([HumanReviewStep]) && ThreadPhase(thread) == Completed
        && GetState(thread) == Some(Checkpoint(
             Merge(old(checkpoints)[thread].values, HumanReview(old(checkpoints)[thread].values)), End))
      ensures forall t :: t != thread ==> GetState(t) == old(GetState(t))
    {
      if thread !in checkpoints {
        return Failure(UnknownThread);
      }
      var c := checkpoints[thread];
      var res := Resumed(c);
      if res.Failure? {
        return Failure(res.error);
      }
      if c.next == At(HumanReviewStep) {
        ResumeRunsReviewOnce(c);
      }
      checkpoints := checkpoints[thread := res.value.checkpoint];
      r := Success(res.value.executed);
    }
  }
}
