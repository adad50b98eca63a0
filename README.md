# LinkedIn post workflow — a verified model

This project models the core of a LinkedIn post generator. A workflow state machine
(`state/state.py`) takes a record called `AgentState` through seven nodes:

- `input_node`
- `validator_node`
- `generate_post_node`
- `post_validation_node`
- `human_feedback_node`
- `collect_feedback_node`
- `post`

Three routers pick the branches between them. The project also models three pieces
of the Streamlit front end (`app.py`):

- the message categoriser that reads this workflow's history entries;
- the badge table built on it;
- the rule that folds a pending user reply into the state before the graph is
  invoked again.

Modules:

- `Wrappers` (`wrappers.dfy`) defines `Option`.
- `Text` (`text.dfy`) provides the string operations the source relies on:
  - Python's `str.strip` over the full `isspace` set;
  - lower-casing;
  - substring test (`in`);
  - anchored prefix match (`re.match("^…")`).
- `Workflow` (`workflow.dfy`) holds the pure model:
  - the value of an `AgentState` record (`Snapshot`);
  - each node as a function from a state to the state it leaves behind, or the
    exception it raises;
  - the three routers;
  - the edge table built by the `graph.add_*` calls;
  - one step (`Step`) and a whole run (`Walk`) from `input_node`.
- `Agent` (`agent.dfy`) is the imperative form. Class `AgentState` has one field per
  key, and one method per node that updates those fields in place. `Run` is the run
  loop.
  - Each node method is proved to leave exactly the state that its `Workflow`
    function computes, or to raise exactly the same exception.
  - `Run` is proved to end in the final state, halt and trace that `Walk` computes.
- `Runs` (`runs.dfy`) holds the properties of whole runs:
  - the history and drafts only grow;
  - the quirk in input validation;
  - a rejected input ends the run;
  - the post-validation loop;
  - the feedback branch;
  - the end-to-end scenarios.
- `App` (`app.dfy`) holds the categoriser and the badge table. It has cross-file
  lemmas saying how each node's history entry is categorised, the pending-input rule,
  and a `Session` class for the `st.session_state` block at app.py:257-265.

The model-backed helpers (`cached_validator_llm` and the other four) are opaque. What
they reply is an input, collected in an `Oracle`:

- one reply to the input validator;
- a finite sequence of `Round`s;
- one sentiment;
- one revision.

Each `Round` holds what one pass through `generate_post_node` and
`post_validation_node` consumes: the generated post, the `uuid4()` string and the
judge's verdict. The loop from `post_validation_node` back to `generate_post_node`
does not end on its own, so each pass consumes one round. A run that runs out of
rounds halts with `OutOfReplies`.

The quirk in input validation is modelled as written. `validator_node` accepts any
reply whose stripped, lower-cased text contains "valid", so "Invalid" and
" INVALID\n" are accepted (`Runs.InvalidReplyPasses`, `Runs.ValidatorExamples`).

Behaviour of the code that a reader might not expect, all modelled as written:

- `user_id` gets a fresh `uuid4()` on every pass through `generate_post_node`
  (state/state.py:136-138), not only on the first.
- `collect_feedback_node` does not check that `feedback` is set. It only needs
  `drafts[-1]` to exist, and raises `IndexError` on an empty list
  (state/state.py:209-214).
- `post` reads `best_post` but never checks its value (state/state.py:225).
- The graph's only entry point is `input_node` (state/state.py:243). Every invocation
  therefore starts there again and reruns input validation.
- With `feedback` `None`, the entry `human_feedback_node` records is
  "Feedback received: None" (state/state.py:182, 196; `Runs.RetryScenario`).

## Model

| member | source | states |
|---|---|---|
| Workflow.Input | state/state.py:37-43 | `input_node` returns the state unchanged, every key included |
| Workflow.Validator | state/state.py:102-118 | `validation` is "Valid" exactly when the stripped, lower-cased reply contains "valid", and "Invalid" otherwise; appends exactly "Validation Node: Response - " + raw reply; sets `current_step` to "validate_node"; changes nothing else, drafts included |
| Workflow.GeneratePost | state/state.py:126-141 | drafts grow by exactly one, the new text goes at the end and earlier drafts are untouched; history grows by one, the "Generated Post: " + text entry; `current_step` is "Generating Post"; `user_id` is the fresh id; nothing else changes |
| Workflow.PostValidation | state/state.py:149-164 | raises ValueError "Missing user information for post validation!" exactly when topic, tone, audience or drafts is empty; otherwise sets `on` to the verdict and `current_step` to "post_validation", appends one entry, and leaves drafts and everything else unchanged |
| Workflow.HumanFeedback | state/state.py:175-198 | raises ValueError "No drafts found for user!" exactly when drafts is empty; otherwise sets `analysis` to the sentiment and appends exactly one entry: a Positive entry for positive sentiment with non-empty feedback, a Negative entry for negative sentiment with non-empty feedback, and "Feedback received: …" otherwise; `current_step` and drafts unchanged |
| Workflow.CollectFeedback | state/state.py:206-222 | raises IndexError "list index out of range" exactly when drafts is empty (`draft[-1]`); otherwise sets `best_post` to the revision, `current_step` to "Collecting feedback from human", appends "Generated post based on feedback: " + revision, and leaves drafts unchanged |
| Workflow.Post | state/state.py:224-228 | appends exactly the "Post sent to LinkedIn (simulated). PING ==> PONG" entry and changes nothing else |
| Workflow.ValidationRouter | state/state.py:120-124 | goes to `generate_post_node` if and only if `validation` is "Valid", and to END otherwise |
| Workflow.OnValidationRouter | state/state.py:166-170 | goes to `human_feedback_node` if and only if `on` is exactly "Valid", and loops to `generate_post_node` otherwise |
| Workflow.SentimentRouting | state/state.py:200-204 | ends the run if and only if `analysis` is "positive", and goes to `collect_feedback_node` otherwise |
| Workflow.Successors | state/state.py:245-261 | the edge table, with one entry per node: the targets its `add_edge` or `add_conditional_edges` call declares; `Workflow.Step` moves only along it |
| Workflow.EdgeTable | state/state.py:245-261 | only `validator_node`, `human_feedback_node` and `post` have an edge to END; no edge leads back to `input_node`; no node has an edge to itself |
| Workflow.Walk | state/state.py:231-264 | the run of the compiled graph from a node, until END, an exception, or the last reply: the reference definition that `Agent.AgentState.Run` is proved equal to and that the `Runs` lemmas reason about |
| Workflow.FeedbackEntry | state/state.py:186-197 | the entry of `human_feedback_node` ends with the feedback as an f-string shows it; its prefix is the Positive one exactly for positive sentiment with truthy feedback, the Negative one exactly for negative sentiment with truthy feedback, and "Feedback received: " otherwise |
| Workflow.Step | state/state.py:231-261 | every move follows an edge of the graph; the oracle's other replies are kept and its rounds are either kept or lose exactly the first round; a move that consumes no round strictly lowers the node's rank, so walks terminate; a raise leaves the state unchanged |
| Agent.AgentState.constructor | state/state.py:22-34 | the object holds exactly the given record |
| Agent.AgentState.InputNode | state/state.py:37-43 | the fields are left as `Workflow.Input` describes |
| Agent.AgentState.ValidatorNode | state/state.py:102-118 | the fields are updated in place to exactly `Workflow.Validator` of the old record |
| Agent.AgentState.GeneratePostNode | state/state.py:126-141 | the fields are updated in place to exactly `Workflow.GeneratePost` of the old record |
| Agent.AgentState.PostValidationNode | state/state.py:149-164 | returns the ValueError and changes nothing exactly when `Workflow.PostValidation` raises, and otherwise updates the fields to its result |
| Agent.AgentState.HumanFeedbackNode | state/state.py:175-198 | returns the ValueError and changes nothing exactly when `Workflow.HumanFeedback` raises, and otherwise updates the fields to its result |
| Agent.AgentState.CollectFeedbackNode | state/state.py:206-222 | returns the IndexError and changes nothing exactly when `Workflow.CollectFeedback` raises, and otherwise updates the fields to its result |
| Agent.AgentState.PostNode | state/state.py:224-228 | the fields are updated in place to exactly `Workflow.Post` of the old record |
| Agent.AgentState.Advance | state/state.py:246-261 | runs one node and its router in place and agrees with `Workflow.Step` on the new state, the halt, the next target and the remaining replies |
| Agent.AgentState.Run | state/state.py:231-264 | the run loop from the entry point `input_node` ends in exactly the state, halt and trace of `Workflow.Walk` |
| Runs.StepEffects | state/state.py:102-228 | one step keeps the earlier history and drafts as prefixes; every node except `input_node` adds exactly one history entry; drafts grow only at `generate_post_node`, by one; topic, tone, audience and feedback never change |
| Runs.WalkOnlyAppends | state/state.py:231-261 | over a whole run, the starting history and drafts are prefixes of the final ones; history grows by one entry per completed node other than `input_node`; drafts grow by the number of times `generate_post_node` ran; topic, tone, audience and feedback are unchanged |
| Runs.WalkFollowsEdges | state/state.py:243-261 | a walk's trace starts at the node it started from; each node in the trace is followed by one of its successors in the edge table; a walk that reaches END does so from a node with an edge to END |
| Runs.InvalidReplyPasses | state/state.py:111-113 | a reply containing "invalid" in any case sets `validation` to "Valid" and routes to `generate_post_node` |
| Runs.ValidatorExamples | state/state.py:111-116 | "Invalid" and " INVALID\n" are accepted as Valid, and "No" is rejected as Invalid |
| Runs.RejectedInputEndsRun | state/state.py:120-124 | when the validity reply does not contain "valid", the run finishes after `input_node` and `validator_node`, drafts are unchanged and history has gained exactly the validator's entry |
| Runs.AcceptedInputGeneratesOnce | state/state.py:247-251 | an accepted input leads straight to `generate_post_node`, which takes its post from the first round |
| Runs.LoopWithoutValidVerdict | state/state.py:166-170 | if no verdict is exactly "Valid", the walk never reaches `human_feedback_node` and halts only when the replies run out or a node raises |
| Runs.FeedbackBranch | state/state.py:200-228 | from `human_feedback_node` with a draft, the run ends after that node alone iff the sentiment is "positive"; otherwise it runs `collect_feedback_node` and `post`, sets `best_post` to the revision and adds three entries ending in the published entry; drafts and `user_id` are never changed |
| Runs.FeedbackWithoutDraftRaises | state/state.py:180-181 | with no drafts, `human_feedback_node` raises "No drafts found for user!" and the state is left unchanged |
| Runs.FirstValidVerdictEndsLoop | state/state.py:251-255 | with topic, tone and audience filled in, if the first "Valid" verdict is round k, the run finishes, reaches `human_feedback_node`, and runs `generate_post_node` exactly k + 1 times |
| Runs.LoopKeepsEveryDraft | state/state.py:136-138 | on that same run, the final drafts are exactly the starting drafts followed by the posts of rounds 0 to k in order, and `user_id` is the id drawn by the last generation |
| Runs.GenerationFinishesAfterFeedback | state/state.py:251-261 | a walk from `generate_post_node` that finishes has passed through `human_feedback_node`, and its `current_step` is then "post_validation" or "Collecting feedback from human" |
| Runs.PositiveScenario | state/state.py:186-189 | valid input, a valid draft and positive feedback finish the run with four entries ending in "Positive feedback received: …", one draft and `best_post` still None |
| Runs.NegativeScenario | state/state.py:190-228 | the same run with negative feedback gives six entries ending in the revision entry and the published entry, with `best_post` set to the revision |
| Runs.RetryScenario | state/state.py:166-170 | a first "Invalid" verdict and then "Valid" produce both drafts in order, the second round's `user_id`, and a finished run; with `feedback` None the feedback entry reads "Feedback received: None" |
| Text.ValidIgnoresStrip | state/state.py:111-112 | stripping whitespace before the lower-case substring test never changes whether "valid" is found |
| Text.InvalidContainsValid | state/state.py:112 | any text containing "invalid" contains "valid" |
| App.MessageCategory | app.py:315-325 | an AI message is "original", "feedback", "validation" or "feedback-user" exactly when its content starts with the matching prefix; a Human message, or any other text, gets None |
| App.BadgeHtml | app.py:327-336 | the badge is non-empty exactly for the four categories, and empty for None or any other value |
| App.BadgesDistinct | app.py:327-336 | the four categories have four different badges |
| App.ValidatorEntryUntagged | app.py:321-322 | the "Validation Node: Response - …" entry of `validator_node` is categorised None, not "validation" |
| App.GeneratedEntryIsOriginal | app.py:317-318 | every entry `generate_post_node` appends is categorised "original" |
| App.PostValidationEntryIsValidation | app.py:321-322 | every entry `post_validation_node` appends is categorised "validation" |
| App.FeedbackEntryCategory | app.py:323-325 | the entry of `human_feedback_node` is "feedback-user" exactly when its sentiment is "positive" or "negative" and the feedback is non-empty, and None otherwise |
| App.RevisionEntryIsFeedback | app.py:319-320 | every entry `collect_feedback_node` appends is categorised "feedback" |
| App.PublishedEntryUntagged | app.py:325 | the published entry of `post` has no category |
| App.AcceptsFeedback | app.py:261 | the two steps after which a chat message is taken as feedback: "Collecting feedback from human" and "post_validation" |
| App.AcceptInput | app.py:257-262 | the displayed history gains a Human message with the input, which becomes the state's history; `feedback` becomes the input exactly when `current_step` is "Collecting feedback from human" or "post_validation"; nothing else changes |
| App.FinishedRunAcceptsFeedback | app.py:261-262 | after a run that finishes, the next input is taken as feedback if and only if the run passed through `human_feedback_node` |
| App.AcceptedFeedbackIsEchoed | app.py:261-263 | input accepted as feedback, once graded positive or negative, yields a "feedback-user" entry ending in that input |
| App.Session.constructor | app.py:234-250 | a new session has an empty displayed history, no pending input, and the initial `AgentState` |
| App.Session.AcceptPending | app.py:257-262 | a pending input is popped and applied as `AcceptInput` describes; with none pending, nothing changes |
| App.Session.ProcessPending | app.py:257-265 | with a pending input, applies it, then runs the graph, which ends as `Workflow.Walk` describes, and shows the run's history; with none pending, nothing changes |

## Left out

- The model-backed helpers (state/state.py:49-99), their prompts and the `llm` client
  are network calls. Their replies are oracle inputs. Two things are therefore not
  modelled:
  - how the prompts are formatted (`str(tone)`, `', '.join(audience)`);
  - which arguments are passed, such as `drafts[-1]` to the post judge or the
    feedback to the reviser.
- `@st.cache_data` memoisation is not modelled. A cached call is simply a reply the
  oracle gives again. Within one loop `cached_generate_post_llm` gets the same
  arguments every round (state/state.py:135), and `cached_post_validation_llm` gets
  the same `drafts[-1]` whenever the post is the same (state/state.py:159). With the
  cache in force, a verdict other than "Valid" therefore comes back every round until
  LangGraph's recursion limit; `Runs.LoopWithoutValidVerdict` covers that case: it
  holds for any rounds without a "Valid" verdict, identical ones included. The rounds of `Runs.RetryScenario`, which differ, arise only when
  the helpers are not cached.
- `uuid4()` is a fresh string taken from the oracle's rounds.
- The SQLite connection, the `SqliteSaver` checkpointer, and how LangGraph's
  `compile` and `invoke` merge, copy and persist state are library code and not part
  of this model. `Run` applies every node's update in place to one record, including
  `post`, which returns `None` after appending to history.
- LangGraph's recursion limit is not modelled as such. A run instead halts when its
  finite sequence of rounds is used up.
- Workflow.Input: history and drafts are always lists (app.py:240-245 creates them
  that way). The `is None` normalisations at state/state.py:38-39, 127-130, 150-151,
  176-177 and 207-208 therefore never fire, so `input_node` is the identity.
- Missing keys are not modelled: every key is present in the record app.py builds.
  The `KeyError`s that `state['…']` would raise, and the `''` default of
  `state.get('feedback', '')`, lie outside the model.
- Text.Lower: only ASCII letters are lower-cased. Python's `str.lower` also lower-cases
  other letters, so `Workflow.Validator` agrees with the source only on replies in
  which "valid" cannot arise from non-ASCII case folding.
- The `print` debug output is not modelled.
- The Streamlit UI is not modelled: rendering, CSS and HTML, spinners, tabs, the FAQ,
  form widgets, and the loop that draws each message with its badge. The categoriser
  and the badge functions are modelled.
- `setup.py` is packaging metadata only.
