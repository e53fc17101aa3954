/** The two request handlers of main.py, `/predict` and `/confirm`, as methods
    over the checkpoint store: what they hand to the graph and what they read
    back from it. Transport, validation and serialization are not modelled. */
module Service {
  import opened Wrappers
  import opened Agent
  import opened Workflow

  /** The feedback domain `Literal["confirm", "reject"]`. */
  datatype Action = Confirm | Reject

  datatype PredictRequest = PredictRequest(number: int, threadId: string)
  datatype FeedbackRequest = FeedbackRequest(threadId: string, action: Action)

  /** `{"prediction": ..., "status": ...}` */
  datatype PredictResponse = PredictResponse(prediction: Option<string>, status: string)
  /** `{"result": ...}` */
  datatype ConfirmResponse = ConfirmResponse(result: string)

  const WaitingStatus := "waiting_for_confirmation"
  /** The fallback `/confirm` reports when the snapshot holds no `final_result`. */
  const DefaultResult := "Done"

  /** The string a request's action carries. */
  function ActionText(a: Action): (w: string)
    ensures w == ConfirmWord <==> a == Confirm
  {
    match a
    case Confirm => ConfirmWord
    case Reject => "reject"
  }

  /** What `/confirm` reports for a thread whose checkpoint is `c`:
      its `final_result` when it has one, and "Done" otherwise. */
  function Reported(c: Option<Checkpoint>): (w: string)
    ensures c.Some? && c.value.values.finalResult.Some? ==> w == c.value.values.finalResult.value
    ensures c.None? || c.value.values.finalResult.None? ==> w == DefaultResult
  {
    match c
    case None => DefaultResult
    case Some(ck) => ck.values.finalResult.GetOr(DefaultResult)
  }

  /** `/predict`: start the thread with `{"number": ...}`, which runs `predict` and
      pauses before `human_review`, then report the stored prediction. */
  method HandlePredict(store: CheckpointStore, req: PredictRequest) returns (resp: PredictResponse)
    requires store.Valid()
    modifies store
    ensures store.Valid()
    ensures store.checkpoints ==
      old(store.checkpoints)[req.threadId := Started(old(store.GetState(req.threadId)), req.number).checkpoint]
    ensures store.ThreadPhase(req.threadId) == PausedBefore(HumanReviewStep)
    ensures resp == PredictResponse(Some(ParityOf(req.number)), WaitingStatus)
  {
    var _ := store.Start(req.threadId, req.number);
    var snapshot := store.GetState(req.threadId);
    resp := PredictResponse(snapshot.value.values.prediction, WaitingStatus);
  }

  /** `/confirm`: write the action into `human_feedback`, resume, and report the
      stored `final_result`. On a thread paused before `human_review` that is
      `human_review_node` applied to the updated state. On a thread that already
      completed, the feedback is still rewritten, resuming runs nothing, and the
      earlier result is reported again, whatever the new action. On a thread
      that was never started, the failure of `update_state` is handed back to
      the caller and nothing changes. */
  method HandleConfirm(store: CheckpointStore, req: FeedbackRequest)
    returns (resp: Result<ConfirmResponse, Error>)
    requires store.Valid()
    modifies store
    ensures store.Valid()
    ensures forall t :: t != req.threadId ==> store.GetState(t) == old(store.GetState(t))
    ensures resp.Failure? <==> old(store.GetState(req.threadId)).None?
    ensures resp.Failure? ==>
      resp.error == UnknownThread && store.checkpoints == old(store.checkpoints)
    ensures old(store.ThreadPhase(req.threadId)) == PausedBefore(HumanReviewStep) ==>
      var updated := WithFeedback(old(store.checkpoints)[req.threadId], ActionText(req.action));
      && store.ThreadPhase(req.threadId) == Completed
      && store.GetState(req.threadId) == Some(Checkpoint(Merge(updated.values, HumanReview(updated.values)), End))
      && resp.Success? && Some(resp.value.result) == HumanReview(updated.values).finalResult
    ensures old(store.ThreadPhase(req.threadId)) == Completed ==>
      && store.checkpoints == old(store.checkpoints)[req.threadId :=
           WithFeedback(old(store.checkpoints)[req.threadId], ActionText(req.action))]
      && store.ThreadPhase(req.threadId) == Completed
      && resp == Success(ConfirmResponse(Reported(old(store.GetState(req.threadId)))))
    ensures resp.Success? ==> Some(resp.value.result) == store.GetState(req.threadId).value.values.finalResult
  {
    var updated := store.UpdateFeedback(req.threadId, ActionText(req.action));
    if updated.Failure? {
      return Failure(updated.error);
    }
    // On a completed thread the stream is empty (`AlreadyCompleted`); the handler goes on.
    var _ := store.Resume(req.threadId);
    resp := Success(ConfirmResponse(Reported(store.GetState(req.threadId))));
  }

  /** Number 4 confirmed on a fresh store reports "Confirmed: even". */
  method ConfirmEvenScenario() returns (result: string)
    ensures result == "Confirmed: even"
  {
    var store := new CheckpointStore();
    var p := HandlePredict(store, PredictRequest(4, "t1"));
    assert p.prediction == Some(Even);
    var c := HandleConfirm(store, FeedbackRequest("t1", Confirm));
    result := c.value.result;
  }

  /** Two threads interleaved on one store do not disturb each other:
      4 confirmed on "t1" and 7 rejected on "t2". A second `/confirm` on the
      completed "t1", now with "reject", reports the first result again. */
  method TwoThreadScenario() returns (first: string, second: string, again: string)
    ensures first == "Confirmed: even"
    ensures second == "User corrected to: even"
    ensures again == "Confirmed: even"
  {
    var store := new CheckpointStore();
    var p1 := HandlePredict(store, PredictRequest(4, "t1"));
    var p2 := HandlePredict(store, PredictRequest(7, "t2"));
    assert p2.prediction == Some(Odd);
    var c2 := HandleConfirm(store, FeedbackRequest("t2", Reject));
    var c1 := HandleConfirm(store, FeedbackRequest("t1", Confirm));
    var c3 := HandleConfirm(store, FeedbackRequest("t1", Reject));
    first, second, again := c1.value.result, c2.value.result, c3.value.result;
  }
}
