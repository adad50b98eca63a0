/**
 * The AgentState dictionary of state/state.py as an object whose node methods update it
 * in place, and the run of the compiled graph as a loop over the edge table.
 */
module Agent {
  import opened Wrappers
  import opened Text
  import opened Workflow

  class AgentState {
    var userId: string
    var topic: string
    var tone: seq<string>
    var audience: seq<string>
    var drafts: seq<string>
    var bestPost: Option<string>
    var feedback: Option<string>
    var history: seq<Message>
    var currentStep: Option<string>
    var validation: Option<string>
    var on: string
    var analysis: string

    /** The record this object holds. */
    function Value(): Snapshot
      reads this
    {
      Snapshot(userId, topic, tone, audience, drafts, bestPost, feedback, history,
               currentStep, validation, on, analysis)
    }

    /** A state holding the record `s`. */
    constructor (s: Snapshot)
      ensures Value() == s
    {
      userId, topic, tone, audience := s.userId, s.topic, s.tone, s.audience;
      drafts, bestPost, feedback, history := s.drafts, s.bestPost, s.feedback, s.history;
      currentStep, validation, on, analysis := s.currentStep, s.validation, s.on, s.analysis;
    }

    /** `input_node`. */
    method InputNode()
      modifies this
      ensures Value() == Input(old(Value()))
    {
    }

    /** `validator_node`, given the validator's raw reply. */
    method ValidatorNode(response: string)
      modifies this
      ensures Value() == Validator(old(Value()), response)
    {
      currentStep := Some("validate_node");
      history := history + [AI(ValidationPrefix + response)];
      var result := Lower(Strip(response));
      if Contains(result, "valid") {
        validation := Some("Valid");
      } else {
        validation := Some("Invalid");
      }
    }

    /** `generate_post_node`, given the generated post and the uuid drawn for it. */
    method GeneratePostNode(post: string, freshId: string)
      modifies this
      ensures Value() == GeneratePost(old(Value()), post, freshId)
    {
      drafts := drafts + [post];
      userId := freshId;
      currentStep := Some("Generating Post");
      history := history + [AI(GeneratedPrefix + post)];
    }

    /** `post_validation_node`, given the verdict on the latest draft; an exception leaves the state as it was. */
    method PostValidationNode(verdict: string) returns (error: Option<Failure>)
      modifies this
      ensures error.Some? ==> PostValidation(old(Value()), verdict) == Outcome.Raised(error.value) && Value() == old(Value())
      ensures error.None? ==> PostValidation(old(Value()), verdict) == Done(Value())
    {
      if topic == "" || tone == [] || audience == [] || drafts == [] {
        return Some(ValueError("Missing user information for post validation!"));
      }
      currentStep := Some("post_validation");
      on := verdict;
      history := history + [AI(PostValidationPrefix + verdict)];
      error := None;
    }

    /** `human_feedback_node`, given the sentiment of the stored feedback. */
    method HumanFeedbackNode(sentiment: string) returns (error: Option<Failure>)
      modifies this
      ensures error.Some? ==> HumanFeedback(old(Value()), sentiment) == Outcome.Raised(error.value) && Value() == old(Value())
      ensures error.None? ==> HumanFeedback(old(Value()), sentiment) == Done(Value())
    {
      if drafts == [] {
        return Some(ValueError("No drafts found for user!"));
      }
      analysis := sentiment;
      if sentiment == "positive" && Truthy(feedback) {
        history := history + [AI(PositivePrefix + feedback.value)];
      } else if sentiment == "negative" && Truthy(feedback) {
        history := history + [AI(NegativePrefix + feedback.value)];
      } else {
        history := history + [AI(FeedbackPrefix + Shown(feedback))];
      }
      error := None;
    }

    /** `collect_feedback_node`, given the revised post. */
    method CollectFeedbackNode(revision: string) returns (error: Option<Failure>)
      modifies this
      ensures error.Some? ==> CollectFeedback(old(Value()), revision) == Outcome.Raised(error.value) && Value() == old(Value())
      ensures error.None? ==> CollectFeedback(old(Value()), revision) == Done(Value())
    {
      if drafts == [] {
        return Some(IndexError("list index out of range"));
      }
      currentStep := Some("Collecting feedback from human");
      history := history + [AI(RevisedPrefix + revision)];
      bestPost := Some(revision);
      error := None;
    }

    /** `post`. */
    method PostNode()
      modifies this
      ensures Value() == Post(old(Value()))
    {
      history := history + [AI(PublishedEntry)];
    }

    /**
     * Runs node `at` with the replies of `o` and consults its router or fixed edge: either
     * the walk stops with `stop`, or it goes on to `next` with the replies still unread.
     */
    method Advance(at: Node, o: Oracle) returns (stop: Option<Halt>, next: Target, rest: Oracle)
      modifies this
      ensures Step(at, old(Value()), o) == if stop.Some? then Halted(Value(), stop.value) else Move(Value(), rest, next)
    {
      stop, next, rest := None, End, o;
      match at {
        case InputNode =>
          InputNode();
          next := To(Node.ValidatorNode);
        case ValidatorNode =>
          ValidatorNode(o.validity);
          next := ValidationRouter(validation);
        case GeneratePostNode =>
          if o.rounds == [] {
            stop := Some(OutOfReplies);
          } else {
            GeneratePostNode(o.rounds[0].post, o.rounds[0].userId);
            next := To(Node.PostValidationNode);
          }
        case PostValidationNode =>
          if o.rounds == [] {
            stop := Some(OutOfReplies);
          } else {
            var error := PostValidationNode(o.rounds[0].verdict);
            if error.Some? {
              stop := Some(Threw(error.value));
            } else {
              next := OnValidationRouter(on);
              rest := o.(rounds := o.rounds[1..]);
            }
          }
        case HumanFeedbackNode =>
          var error := HumanFeedbackNode(o.sentiment);
          if error.Some? {
            stop := Some(Threw(error.value));
          } else {
            next := SentimentRouting(analysis);
          }
        case CollectFeedbackNode =>
          var error := CollectFeedbackNode(o.revision);
          if error.Some? {
            stop := Some(Threw(error.value));
          } else {
            next := To(Node.PostNode);
          }
        case PostNode =>
          PostNode();
      }
    }

    /**
     * One invocation of the compiled graph: from `input_node`, run a node, follow the edge
     * table, and repeat until `END`, an exception, or the last round.
     */
    method Run(o: Oracle) returns (halt: Halt, trace: seq<Node>)
      modifies this
      ensures Walk(Node.InputNode, old(Value()), o) == Walked(Value(), halt, trace)
    {
      ghost var total := Walk(Node.InputNode, Value(), o);
      var at := Node.InputNode;
      var rest := o;
      var done := false;
      halt, trace := Finished, [];
      while !done
        invariant !done ==> total == Prepend(trace, Walk(at, Value(), rest))
        invariant done ==> total == Walked(Value(), halt, trace)
        decreases !done, |rest.rounds|, Rank(at)
      {
        ghost var before := Value();
        var stop, next, unread := Advance(at, rest);
        if stop.Some? {
          halt, done := stop.value, true;
        } else if next.End? {
          trace := trace + [at];
          halt, done := Finished, true;
        } else {
          assert Walk(at, before, rest) == Prepend([at], Walk(next.node, Value(), unread));
          trace := trace + [at];
          at, rest := next.node, unread;
        }
      }
    }
  }
}
