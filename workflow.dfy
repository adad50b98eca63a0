/**
 * The LinkedIn-post workflow of state/state.py as values: the AgentState record, the
 * seven nodes as functions from a state to the state they leave behind, the three
 * routers, the edge table wired by the `graph.add_*` calls, and a walk of the graph
 * from `input_node`.
 *
 * The model-backed helpers (`cached_validator_llm` and its siblings) are opaque: every
 * reply they would give is an input, collected in an `Oracle`.
 */
module Workflow {
  import opened Wrappers
  import opened Text

  /** A chat entry: `HumanMessage` or `AIMessage`, with its `content`. */
  datatype Message = Human(content: string) | AI(content: string)

  /** The value of an `AgentState` record; every key the application initialises is present. */
  datatype Snapshot = Snapshot(
    userId: string,
    topic: string,
    tone: seq<string>,
    audience: seq<string>,
    drafts: seq<string>,
    bestPost: Option<string>,
    feedback: Option<string>,
    history: seq<Message>,
    currentStep: Option<string>,
    validation: Option<string>,
    on: string,
    analysis: string)

  /** The exceptions a node raises. */
  datatype Failure = ValueError(message: string) | IndexError(message: string)

  /** What a node that may raise leaves behind. */
  datatype Outcome = Done(state: Snapshot) | Raised(error: Failure)

  /** The nodes registered with `graph.add_node`. */
  datatype Node =
    | InputNode | ValidatorNode | GeneratePostNode | PostValidationNode
    | HumanFeedbackNode | CollectFeedbackNode | PostNode

  /** Where an edge leads: a node, or the graph's `END`. */
  datatype Target = To(node: Node) | End

  // The texts the nodes put in the history.
  const ValidationPrefix := "Validation Node: Response - "
  const GeneratedPrefix := "Generated Post: "
  const PostValidationPrefix := "Post Validation Node: Validation result - "
  const PositivePrefix := "Positive feedback received: "
  const NegativePrefix := "Negative feedback received: "
  const FeedbackPrefix := "Feedback received: "
  const RevisedPrefix := "Generated post based on feedback: "
  const PublishedEntry := "Post sent to LinkedIn" + " (simulated). PING ==> PONG"

  /** How an f-string shows an optional string: `None` prints as "None". */
  function Shown(x: Option<string>): string {
    match x
    case None => "None"
    case Some(v) => v
  }

  /** Python truthiness of an optional string: neither `None` nor empty. */
  predicate Truthy(x: Option<string>) {
    x.Some? && x.value != ""
  }

  // ---------------------------------------------------------------------------------
  // Nodes

  /** `input_node`: with history always a list, it hands the state on untouched. */
  function Input(s: Snapshot): (t: Snapshot)
    ensures t == s
  {
    s
  }

  /**
   * `validator_node`: records the raw reply and sets `validation` from a lower-case
   * substring test of the stripped reply. Because "invalid" contains "valid", a reply of
   * "Invalid" also yields "Valid".
   */
  function Validator(s: Snapshot, response: string): (t: Snapshot)
    ensures t.validation == Some("Valid") <==> Contains(Lower(response), "valid")
    ensures t.validation == Some("Valid") || t.validation == Some("Invalid")
    ensures t.history == s.history + [AI(ValidationPrefix + response)]
    ensures t == s.(currentStep := Some("validate_node"), history := t.history, validation := t.validation)
  {
    var result := Lower(Strip(response));
    assert Contains(result, "valid") <==> Contains(Lower(response), "valid") by {
      ValidIgnoresStrip(response);
    }
    s.(currentStep := Some("validate_node"),
       history := s.history + [AI(ValidationPrefix + response)],
       validation := Some(if Contains(result, "valid") then "Valid" else "Invalid"))
  }

  /**
   * `generate_post_node`: appends the generated post to the drafts, takes a fresh user id
   * on every call, and records the post in the history.
   */
  function GeneratePost(s: Snapshot, post: string, userId: string): (t: Snapshot)
    ensures |t.drafts| == |s.drafts| + 1 && t.drafts[..|s.drafts|] == s.drafts
    ensures t.drafts[|s.drafts|] == post
    ensures |t.history| == |s.history| + 1 && t.history[..|s.history|] == s.history
    ensures t.history[|s.history|] == AI(GeneratedPrefix + post)
    ensures t.currentStep == Some("Generating Post") && t.userId == userId
    ensures t == s.(drafts := t.drafts, history := t.history, currentStep := t.currentStep, userId := userId)
  {
    s.(drafts := s.drafts + [post],
       userId := userId,
       currentStep := Some("Generating Post"),
       history := s.history + [AI(GeneratedPrefix + post)])
  }

  /** The input fields `post_validation_node` demands, with Python truthiness. */
  predicate HasUserInformation(s: Snapshot) {
    s.topic != "" && s.tone != [] && s.audience != [] && s.drafts != []
  }

  /**
   * `post_validation_node`: raises when topic, tone, audience or drafts is empty;
   * otherwise stores the verdict on the latest draft in `on` and records it.
   */
  function PostValidation(s: Snapshot, verdict: string): (r: Outcome)
    ensures r.Raised? <==> !HasUserInformation(s)
    ensures r.Raised? ==> r.error == ValueError("Missing user information for post validation!")
    ensures r.Done? ==>
      && r.state.on == verdict
      && r.state.currentStep == Some("post_validation")
      && r.state.drafts == s.drafts
      && r.state.history == s.history + [AI(PostValidationPrefix + verdict)]
      && r.state == s.(on := verdict, currentStep := r.state.currentStep, history := r.state.history)
  {
    if s.topic == "" || s.tone == [] || s.audience == [] || s.drafts == [] then
      Raised(ValueError("Missing user information for post validation!"))
    else
      Done(s.(currentStep := Some("post_validation"),
              on := verdict,
              history := s.history + [AI(PostValidationPrefix + verdict)]))
  }

  /** The entry `human_feedback_node` records for a sentiment and a feedback value. */
  function FeedbackEntry(sentiment: string, feedback: Option<string>): (e: string)
    ensures var k := |e| - |Shown(feedback)|;
      && 0 <= k && e[k..] == Shown(feedback)
      && (e[..k] == PositivePrefix <==> sentiment == "positive" && Truthy(feedback))
      && (e[..k] == NegativePrefix <==> sentiment == "negative" && Truthy(feedback))
      && (e[..k] == FeedbackPrefix <==> !(Truthy(feedback) && (sentiment == "positive" || sentiment == "negative")))
  {
    assert PositivePrefix[0] != NegativePrefix[0] && PositivePrefix[0] != FeedbackPrefix[0];
    assert NegativePrefix[0] != FeedbackPrefix[0];
    if sentiment == "positive" && Truthy(feedback) then PositivePrefix + feedback.value
    else if sentiment == "negative" && Truthy(feedback) then NegativePrefix + feedback.value
    else FeedbackPrefix + Shown(feedback)
  }

  /**
   * `human_feedback_node`: raises when there is no draft; otherwise stores the sentiment
   * of the feedback in `analysis` and records the feedback. It changes neither the step
   * nor the drafts.
   */
  function HumanFeedback(s: Snapshot, sentiment: string): (r: Outcome)
    ensures r.Raised? <==> s.drafts == []
    ensures r.Raised? ==> r.error == ValueError("No drafts found for user!")
    ensures r.Done? ==>
      && r.state.analysis == sentiment
      && r.state.history == s.history + [AI(FeedbackEntry(sentiment, s.feedback))]
      && r.state == s.(analysis := sentiment, history := r.state.history)
  {
    if s.drafts == [] then Raised(ValueError("No drafts found for user!"))
    else Done(s.(analysis := sentiment,
                 history := s.history + [AI(FeedbackEntry(sentiment, s.feedback))]))
  }

  /**
   * `collect_feedback_node`: `drafts[-1]` raises on an empty list; otherwise the revision
   * of the latest draft becomes `best_post` and is recorded. The drafts are untouched.
   */
  function CollectFeedback(s: Snapshot, revision: string): (r: Outcome)
    ensures r.Raised? <==> s.drafts == []
    ensures r.Raised? ==> r.error == IndexError("list index out of range")
    ensures r.Done? ==>
      && r.state.bestPost == Some(revision)
      && r.state.currentStep == Some("Collecting feedback from human")
      && r.state.drafts == s.drafts
      && r.state.history == s.history + [AI(RevisedPrefix + revision)]
      && r.state == s.(bestPost := r.state.bestPost, currentStep := r.state.currentStep, history := r.state.history)
  {
    if s.drafts == [] then Raised(IndexError("list index out of range"))
    else Done(s.(currentStep := Some("Collecting feedback from human"),
                 history := s.history + [AI(RevisedPrefix + revision)],
                 bestPost := Some(revision)))
  }

  /** `post`: records the simulated publication and changes nothing else. */
  function Post(s: Snapshot): (t: Snapshot)
    ensures t.history == s.history + [AI(PublishedEntry)]
    ensures t == s.(history := t.history)
  {
    s.(history := s.history + [AI(PublishedEntry)])
  }

  // ---------------------------------------------------------------------------------
  // Routers and the edge table

  /** `validation_router`: on to generation only when the input was judged "Valid". */
  function ValidationRouter(validation: Option<string>): (t: Target)
    ensures t == To(GeneratePostNode) <==> validation == Some("Valid")
    ensures t == End <==> validation != Some("Valid")
  {
    if validation == Some("Valid") then To(GeneratePostNode) else End
  }

  /** `on_validation_router`: only the exact verdict "Valid" moves on; anything else regenerates. */
  function OnValidationRouter(on: string): (t: Target)
    ensures t == To(HumanFeedbackNode) <==> on == "Valid"
    ensures t == To(GeneratePostNode) <==> on != "Valid"
  {
    if on == "Valid" then To(HumanFeedbackNode) else To(GeneratePostNode)
  }

  /** `sentiment_routing`: positive feedback ends the run; anything else asks for a revision. */
  function SentimentRouting(analysis: string): (t: Target)
    ensures t == End <==> analysis == "positive"
    ensures t == To(CollectFeedbackNode) <==> analysis != "positive"
  {
    if analysis == "positive" then End else To(CollectFeedbackNode)
  }

  /** The edge table: every target the `add_edge` and `add_conditional_edges` calls declare for a node. */
  function Successors(n: Node): set<Target> {
    match n
    case InputNode => {To(ValidatorNode)}
    case ValidatorNode => {To(GeneratePostNode), End}
    case GeneratePostNode => {To(PostValidationNode)}
    case PostValidationNode => {To(HumanFeedbackNode), To(GeneratePostNode)}
    case HumanFeedbackNode => {End, To(CollectFeedbackNode)}
    case CollectFeedbackNode => {To(PostNode)}
    case PostNode => {End}
  }

  /**
   * The shape of the edge table: only `validator_node`, `human_feedback_node` and `post`
   * can end a run, nothing leads back to the entry point, and no node leads to itself.
   */
  lemma EdgeTable(n: Node)
    ensures End in Successors(n) <==> n == ValidatorNode || n == HumanFeedbackNode || n == PostNode
    ensures To(InputNode) !in Successors(n)
    ensures To(n) !in Successors(n)
  {
  }

  // ---------------------------------------------------------------------------------
  // Walking the graph

  /** One round of the post-validation loop: the generated post, its uuid, and the verdict on it. */
  datatype Round = Round(post: string, userId: string, verdict: string)

  /**
   * The replies the model-backed helpers give during one walk: the input verdict, one
   * round per generation, the sentiment of the feedback, and the revised post.
   */
  datatype Oracle = Oracle(validity: string, rounds: seq<Round>, sentiment: string, revision: string)

  /** How a walk stops: at `END`, by an exception, or because the rounds ran out. */
  datatype Halt = Finished | Threw(error: Failure) | OutOfReplies

  /** The result of one node: the next target, or a halt. */
  datatype Move = Move(state: Snapshot, oracle: Oracle, next: Target) | Halted(state: Snapshot, halt: Halt)

  /** A rank that every edge of the graph lowers, except the loop back to generation. */
  function Rank(n: Node): nat {
    match n
    case InputNode => 6
    case ValidatorNode => 5
    case GeneratePostNode => 4
    case PostValidationNode => 3
    case HumanFeedbackNode => 2
    case CollectFeedbackNode => 1
    case PostNode => 0
  }

  /**
   * Runs node `at` on `s` with the replies of `o` and follows the edge table: generation
   * reads the current round, post-validation reads its verdict and then drops it.
   */
  function Step(at: Node, s: Snapshot, o: Oracle): (m: Move)
    ensures m.Move? ==> m.next in Successors(at)
    ensures m.Move? ==> m.oracle == o.(rounds := m.oracle.rounds) && |m.oracle.rounds| <= |o.rounds|
    ensures m.Move? ==> m.oracle.rounds == o.rounds || (o.rounds != [] && m.oracle.rounds == o.rounds[1..])
    ensures m.Move? && m.next.To? && |m.oracle.rounds| == |o.rounds| ==> Rank(m.next.node) < Rank(at)
    ensures m.Halted? ==> m.state == s
  {
    match at
    case InputNode => Move(Input(s), o, To(ValidatorNode))
    case ValidatorNode =>
      var t := Validator(s, o.validity);
      Move(t, o, ValidationRouter(t.validation))
    case GeneratePostNode =>
      if o.rounds == [] then Halted(s, OutOfReplies)
      else Move(GeneratePost(s, o.rounds[0].post, o.rounds[0].userId), o, To(PostValidationNode))
    case PostValidationNode =>
      if o.rounds == [] then Halted(s, OutOfReplies)
      else (
        match PostValidation(s, o.rounds[0].verdict)
        case Raised(e) => Halted(s, Threw(e))
        case Done(t) => Move(t, o.(rounds := o.rounds[1..]), OnValidationRouter(t.on)))
    case HumanFeedbackNode => (
      match HumanFeedback(s, o.sentiment)
      case Raised(e) => Halted(s, Threw(e))
      case Done(t) => Move(t, o, SentimentRouting(t.analysis)))
    case CollectFeedbackNode => (
      match CollectFeedback(s, o.revision)
      case Raised(e) => Halted(s, Threw(e))
      case Done(t) => Move(t, o, To(PostNode)))
    case PostNode => Move(Post(s), o, End)
  }

  /** The state a walk leaves, how it stopped, and the nodes that completed, in order. */
  datatype Walked = Walked(final: Snapshot, halt: Halt, trace: seq<Node>)

  /** `w` with the nodes `p` run before it. */
  function Prepend(p: seq<Node>, w: Walked): Walked {
    w.(trace := p + w.trace)
  }

  /** The walk of the graph from node `at`, until `END`, an exception, or the last round. */
  function Walk(at: Node, s: Snapshot, o: Oracle): Walked
    decreases |o.rounds|, Rank(at)
  {
    match Step(at, s, o)
    case Halted(t, h) => Walked(t, h, [])
    case Move(t, o', next) =>
      if next.End? then Walked(t, Finished, [at])
      else Prepend([at], Walk(next.node, t, o'))
  }

  /** The state app.py creates for a new session. */
  function Initial(): Snapshot {
    Snapshot("", "", [], [], [], None, None, [], None, None, "", "")
  }
}
