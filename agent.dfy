/** The graph's state record (`AgentState`) and its two node functions,
    `predict_node` and `human_review_node`, as pure functions from a state
    to a partial update of it. */
module Agent {
  import opened Wrappers

  /** The four declared keys of the state record. */
  datatype Field = Number | Prediction | HumanFeedback | FinalResult

  /** A value of the state record. `number` is always present once a run has
      started; the three `Optional[str]` keys are `None` while unset. */
  datatype AgentState = AgentState(
    number: int,
    prediction: Option<string>,
    humanFeedback: Option<string>,
    finalResult: Option<string>)

  /** A partial state, as a node function or `update_state` returns it:
      a key is present exactly when its field is `Some`. */
  datatype Update = Update(
    number: Option<int>,
    prediction: Option<string>,
    humanFeedback: Option<string>,
    finalResult: Option<string>)

  const Even := "even"
  const Odd := "odd"
  const ConfirmWord := "confirm"
  const ConfirmedPrefix := "Confirmed: "
  const CorrectedPrefix := "User corrected to: "

  /** The state a run starts from when it is given `{"number": n}` on a fresh thread. */
  function Initial(n: int): AgentState {
    AgentState(n, None, None, None)
  }

  /** An update carrying the single key `number`. */
  function NumberUpdate(n: int): Update {
    Update(Some(n), None, None, None)
  }

  /** An update carrying the single key `human_feedback`. */
  function FeedbackUpdate(feedback: string): Update {
    Update(None, None, Some(feedback), None)
  }

  /** The keys an update carries. */
  function Keys(u: Update): set<Field> {
    (if u.number.Some? then {Number} else {})
    + (if u.prediction.Some? then {Prediction} else {})
    + (if u.humanFeedback.Some? then {HumanFeedback} else {})
    + (if u.finalResult.Some? then {FinalResult} else {})
  }

  /** Field `f` has the same value in `s` and `t`. */
  predicate Agrees(s: AgentState, t: AgentState, f: Field) {
    match f
    case Number => s.number == t.number
    case Prediction => s.prediction == t.prediction
    case HumanFeedback => s.humanFeedback == t.humanFeedback
    case FinalResult => s.finalResult == t.finalResult
  }

  /** Field `f` of `s` holds the value that `u` carries for it. */
  predicate Holds(s: AgentState, u: Update, f: Field) {
    match f
    case Number => u.number == Some(s.number)
    case Prediction => u.prediction == s.prediction
    case HumanFeedback => u.humanFeedback == s.humanFeedback
    case FinalResult => u.finalResult == s.finalResult
  }

  /** A partial merge: exactly the keys `u` carries change, each taking the
      update's value, and every other key keeps its prior value. */
  function Merge(s: AgentState, u: Update): (r: AgentState)
    ensures forall f :: f in Keys(u) ==> Holds(r, u, f)
    ensures forall f :: f !in Keys(u) ==> Agrees(r, s, f)
  {
    AgentState(
      u.number.GetOr(s.number),
      if u.prediction.Some? then u.prediction else s.prediction,
      if u.humanFeedback.Some? then u.humanFeedback else s.humanFeedback,
      if u.finalResult.Some? then u.finalResult else s.finalResult)
  }

  /** How an f-string renders an `Optional[str]`: the string itself, or `None`. */
  function Show(p: Option<string>): string {
    match p
    case Some(v) => v
    case None => "None"
  }

  /** The parity word of an integer, with the Python `%` (for divisor 2 it agrees
      with Dafny's Euclidean `%`, also for negative numbers). */
  function ParityOf(n: int): string {
    if n % 2 == 0 then Even else Odd
  }

  /** `predict_node`: a single key, `prediction`, which is "even" exactly when
      the number is divisible by 2 and "odd" exactly when it is not. */
  function Predict(s: AgentState): (u: Update)
    ensures Keys(u) == {Prediction}
    ensures u.prediction == Some(Even) <==> s.number % 2 == 0
    ensures u.prediction == Some(Odd) <==> s.number % 2 != 0
  {
    Update(None, Some(ParityOf(s.number)), None, None)
  }

  /** `human_review_node`: a single key, `final_result`. With the feedback
      "confirm" it confirms the prediction as the f-string renders it; with any
      other feedback, absent included, it reports a correction to a parity word,
      "odd" exactly when the prediction was "even". */
  function HumanReview(s: AgentState): (u: Update)
    ensures Keys(u) == {FinalResult}
    ensures s.humanFeedback == Some(ConfirmWord) ==>
      u.finalResult == Some(ConfirmedPrefix + Show(s.prediction))
    ensures s.humanFeedback != Some(ConfirmWord) ==>
      exists c :: c in {Even, Odd} && u.finalResult == Some(CorrectedPrefix + c)
                  && (c == Odd <==> s.prediction == Some(Even))
  {
    if s.humanFeedback == Some(ConfirmWord) then
      Update(None, None, None, Some(ConfirmedPrefix + Show(s.prediction)))
    else
      var corrected := if s.prediction == Some(Even) then Odd else Even;
      Update(None, None, None, Some(CorrectedPrefix + corrected))
  }

  /** Applying the same partial update twice is the same as applying it once
      (last write wins per key). */
  lemma MergeIdempotent(s: AgentState, u: Update)
    ensures Merge(Merge(s, u), u) == Merge(s, u)
  {
  }

  /** Merging the result of `predict_node` sets `prediction` to the number's
      parity and leaves `number`, `human_feedback` and `final_result` as they were. */
  lemma PredictOnlySetsPrediction(s: AgentState)
    ensures Merge(s, Predict(s)) == s.(prediction := Some(ParityOf(s.number)))
  {
  }

  /** Merging the result of `human_review_node` sets only `final_result`. */
  lemma ReviewOnlySetsFinalResult(s: AgentState)
    ensures Merge(s, HumanReview(s)) == s.(finalResult := HumanReview(s).finalResult)
  {
  }

  /** The two parity words are distinct, and consecutive integers have different parities. */
  lemma ParityAlternates(n: int)
    ensures ParityOf(n) in {Even, Odd}
    ensures ParityOf(n) != ParityOf(n + 1)
  {
  }

  /** After a prediction, a rejection always "corrects" to the parity the number
      does not have, and a confirmation repeats the parity it has. */
  lemma ReviewAfterPredict(n: int, feedback: Option<string>)
    ensures var s := Merge(Initial(n), Predict(Initial(n))).(humanFeedback := feedback);
      HumanReview(s).finalResult ==
        if feedback == Some(ConfirmWord) then Some(ConfirmedPrefix + ParityOf(n))
        else Some(CorrectedPrefix + ParityOf(n + 1))
  {
  }
}
