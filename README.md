# Parity prediction with a human in the loop

A model of `main.py`. The file builds a two-node LangGraph workflow over a
four-key state record (`AgentState`). `predict_node` classifies a number as
"even" or "odd". `human_review_node` confirms or "corrects" that prediction,
depending on the `human_feedback` key. The graph is compiled with an
in-memory checkpointer (`MemorySaver`) and with an interrupt before
`human_review`. Two HTTP handlers drive it:

- `/predict` starts a thread with `{number}`. This runs `predict` and pauses.
- `/confirm` writes `human_feedback` with `update_state`, resumes with
  `None` so that `human_review` runs, and reports `final_result`.

Modules:

- `Wrappers` (`wrappers.dfy`): `Option` and `Result`.
- `Agent` (`agent.dfy`): the state record, partial updates (`Update`, a key
  is present when its field is `Some`), the merge of a partial update, and the
  two node functions as pure functions.
- `Workflow` (`workflow.dfy`): the fixed chain `predict -> human_review -> END`
  with its interrupt, the engine's step loop as the recursive function `Run`,
  the value-level start/update/resume steps, and the checkpointer as the class
  `CheckpointStore`. The class holds a `map<string, Checkpoint>` keyed by
  `thread_id`. Its methods `Start`, `UpdateFeedback` and `Resume` update that
  map in place. `GetState` reads it.
- `Service` (`service.dfy`): the bodies of the two handlers as methods over a
  store, and two example runs.

Behaviour that the graph library supplies and `main.py` relies on, as modelled:

- A thread's phase is `NoRun` (no checkpoint), `PausedBefore(human_review)`,
  or `Completed` (next is `END`). In a valid store no thread rests anywhere
  else (`CheckpointStore.ThreadPhase`).
- Starting with input on a thread that already has a checkpoint begins a new
  run from the entry node. The input `{number}` is merged into the stored
  values, so `human_feedback` and `final_result` keep their earlier values
  until they are overwritten.
- `update_state` merges only `human_feedback` and keeps the pending node.
- Resuming a completed thread runs nothing and keeps the checkpoint. The
  store reports this as `AlreadyCompleted`. That value means the stream was
  empty. It does not mean an error was raised, and `/confirm` ignores it. By
  contrast, `UnknownThread` from `update_state` stands for an error that
  main.py does not catch. As a result, a second `/confirm` on a
  finished thread reports the first result again, whatever the new action
  (`Service.TwoThreadScenario`).
- `/confirm` does not catch errors (main.py:106-110). In the model, a failed
  `update_state` is therefore handed back to the caller of
  `Service.HandleConfirm`, not turned into a response. The case where
  `update_state` fails is an assumption, listed under "## Left out".
- The `"Done"` fallback of main.py:114 applies only to a snapshot without
  `final_result`. In a valid store every completed thread has one
  (`CheckpointStore.Valid`), so `Service.HandleConfirm` always reports the
  stored `final_result`.
- Python's `number % 2` and Dafny's `%` agree for divisor 2, negative numbers
  included, so the parity test carries over unchanged.

## Model

| member | source | states |
|---|---|---|
| `Agent.Predict` | main.py:17-21 | the update has exactly the key `prediction`; it is "even" iff the number is divisible by 2 and "odd" iff it is not |
| `Agent.HumanReview` | main.py:23-34 | the update has exactly the key `final_result`; with feedback "confirm" it is "Confirmed: " followed by the prediction as an f-string renders it; with any other or absent feedback it is "User corrected to: " followed by a parity word, which is "odd" exactly when the prediction was "even" |
| `Agent.Merge` | main.py:11-15 | merging a partial update sets exactly the keys it carries to its values and leaves every other key as it was |
| `Agent.MergeIdempotent` | main.py:106 | applying the same partial update twice equals applying it once |
| `Agent.PredictOnlySetsPrediction` | main.py:17-21 | merging `predict_node`'s result changes only `prediction`, to the number's parity |
| `Agent.ReviewOnlySetsFinalResult` | main.py:23-34 | merging `human_review_node`'s result changes only `final_result` |
| `Agent.ParityAlternates` | main.py:20 | the prediction is one of the two parity words, and n and n+1 get different ones |
| `Agent.ReviewAfterPredict` | main.py:20-34 | after predicting n, "confirm" yields "Confirmed: " with the parity of n, and any other feedback yields "User corrected to: " with the parity of n+1, which n does not have |
| `Workflow.Run` | main.py:41-47 | the step loop halts at END or before an interrupt node; no node it executes is flagged interrupt-before, except the first one on a resumed run, so it halts at the first interrupt it meets; the executed nodes follow the graph's edges from the pending node to where it halts; each execution moves one node closer to END; the final state is those nodes' updates merged in order; a resumed run first executes the node it paused before; a non-resumed run at END or at an interrupt node executes nothing |
| `Workflow.Started` | main.py:81 | a start (`stream` with `{number}`) executes exactly `predict` and pauses before `human_review`; `number` is the input and `prediction` its parity; on a fresh thread `human_feedback` and `final_result` are unset, and otherwise they keep their stored values |
| `Workflow.WithFeedback` | main.py:106 | `update_state` with `{human_feedback}` changes only `human_feedback` and keeps the pending node |
| `Workflow.Resumed` | main.py:108-110 | resuming has nothing to run, and reports `AlreadyCompleted` instead of a run, exactly when the thread has reached END |
| `Workflow.FeedbackKeepsControl` | main.py:106 | writing feedback keeps the thread's phase, and writing it twice equals writing it once |
| `Workflow.ResumeRunsReviewOnce` | main.py:108-110 | resuming a thread paused before `human_review` executes exactly that node, reaches END, and stores the state merged with `human_review_node`'s result |
| `Workflow.FeedbackCycle` | main.py:72-116 | start with n, then feedback, then resume on a fresh thread: the run completes with `number` n, `prediction` the parity of n, the feedback stored, and `final_result` either confirming the parity of n or naming the parity of n+1 |
| `Workflow.CheckpointStore.constructor` | main.py:46 | the checkpointer starts with no threads |
| `Workflow.CheckpointStore.GetState` | main.py:84 | `get_state` gives the thread's latest checkpoint, which exists exactly when the thread was started; in a valid store it rests at END or before an interrupt node, holds a prediction, and holds a `final_result` once at END |
| `Workflow.CheckpointStore.ThreadPhase` | main.py:45-47 | in a valid store every thread is not started, paused before `human_review`, or completed; it is not started exactly when it has no checkpoint |
| `Workflow.CheckpointStore.Start` | main.py:81 | the thread's checkpoint becomes the start run's checkpoint; only `predict` ran; the thread is paused before `human_review`; every other thread is unchanged |
| `Workflow.CheckpointStore.UpdateFeedback` | main.py:106 | on a started thread the checkpoint gets the feedback merged in; an unknown thread is reported and nothing changes; the phase never changes; every other thread is unchanged |
| `Workflow.CheckpointStore.Resume` | main.py:110 | an unknown thread or a completed one is reported and nothing changes; a thread paused before `human_review` runs exactly that node and completes, with the review result merged; every other thread is unchanged |
| `Service.ActionText` | main.py:70 | the action's word is "confirm" exactly for the confirm action |
| `Service.Reported` | main.py:114 | the reported result is the snapshot's `final_result` when it has one, and "Done" otherwise |
| `Service.HandlePredict` | main.py:72-92 | the thread is started and paused before `human_review`; the response carries the number's parity and the status "waiting_for_confirmation" |
| `Service.HandleConfirm` | main.py:94-116 | on a paused thread it completes the run and reports `human_review_node` applied to the updated state; on a completed thread it rewrites `human_feedback`, runs nothing, and reports the earlier result; on an unknown thread it hands back `UnknownThread` and changes nothing; every response it gives is the stored `final_result`; other threads are unchanged |
| `Service.ConfirmEvenScenario` | main.py:113-116 | number 4 confirmed reports "Confirmed: even" |
| `Service.TwoThreadScenario` | main.py:72-116 | with two threads interleaved on one store, 4 confirmed reports "Confirmed: even", 7 rejected reports "User corrected to: even", and a repeated `/confirm` on the completed thread reports its first result again |

## Left out

- The web layer is not modelled: the FastAPI app, CORS middleware, pydantic request validation, `async` handlers and `uvicorn.run` (main.py:1-2, 6, 50-70, 118-119). Requests and responses are plain datatypes. The action is the two-valued `Action`.
- The "Something went wrong" branch (main.py:86-87) is not modelled. In the model a started thread always holds `number`, so its snapshot is never empty.
- Checkpoint history is not modelled. The checkpointer stores a snapshot after every step, but the handlers only read the latest one, so the model keeps only the latest checkpoint per thread.
- The events that `graph.stream` yields are modelled only as the list of nodes executed. Streamed state values are discarded by the handlers.
- The library's general graph machinery is not modelled: graph validation, conditional edges, other stream modes, and errors raised inside node functions. Both node functions are total on every state the model reaches. `predict_node` would raise `KeyError` on a state without `number` (main.py:19), and the model never reaches such a state.
- Workflow.CheckpointStore.UpdateFeedback, Workflow.CheckpointStore.Resume, Service.HandleConfirm: on a thread with no checkpoint, the model changes nothing and reports `UnknownThread`. What the library does in that case is not modelled. It might raise, or it might create a checkpoint. So the HTTP answer `/confirm` would give is not modelled either.
- The `uuid` import (main.py:7) is not modelled, because it is unused.
- Concurrent requests on the same thread are not modelled. The handlers are modelled as running one after another.
- Chatbot_Langraph/test_langsmith.py, Chatbot_Langraph/trigger_trace.py and Chatbot_Langraph/debug_dotenv.py are not part of this model. They only load environment variables and make network calls to tracing and LLM services.
