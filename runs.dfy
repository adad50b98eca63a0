/**
 * What the workflow of state/state.py guarantees about a walk of its graph: the history
 * and the drafts only grow, a rejected input ends the run before any draft, the
 * post-validation loop only ends on an exact "Valid" verdict, and the feedback branch
 * either stops at once or revises and publishes.
 */
module Runs {
  import opened Wrappers
  import opened Text
  import opened Workflow

  /** How often node `n` occurs in `trace`. */
  function Count(trace: seq<Node>, n: Node): nat {
    if trace == [] then 0 else (if trace[0] == n then 1 else 0) + Count(trace[1..], n)
  }

  /** What one node does to the history, the drafts and the user's input fields. */
  lemma StepEffects(at: Node, s: Snapshot, o: Oracle)
    ensures var m := Step(at, s, o);
      m.Move? ==>
        && s.history <= m.state.history
        && |m.state.history| == |s.history| + (if at == InputNode then 0 else 1)
        && s.drafts <= m.state.drafts
        && |m.state.drafts| == |s.drafts| + (if at == GeneratePostNode then 1 else 0)
        && m.state.topic == s.topic && m.state.tone == s.tone && m.state.audience == s.audience
        && m.state.feedback == s.feedback
  {
  }

  // One step of a walk from each node, in terms of the node's own function.

  lemma WalkInput(s: Snapshot, o: Oracle)
    ensures Walk(InputNode, s, o) == Prepend([InputNode], Walk(ValidatorNode, s, o))
  {
  }

  lemma WalkValidator(s: Snapshot, o: Oracle)
    ensures var t := Validator(s, o.validity);
      Walk(ValidatorNode, s, o) ==
        if t.validation == Some("Valid") then Prepend([ValidatorNode], Walk(GeneratePostNode, t, o))
        else Walked(t, Finished, [ValidatorNode])
  {
  }

  lemma WalkGenerate(s: Snapshot, o: Oracle)
    requires o.rounds != []
    ensures Walk(GeneratePostNode, s, o)
      == Prepend([GeneratePostNode], Walk(PostValidationNode, GeneratePost(s, o.rounds[0].post, o.rounds[0].userId), o))
  {
  }

  lemma WalkPostValidation(s: Snapshot, o: Oracle)
    requires o.rounds != [] && HasUserInformation(s)
    ensures var t := PostValidation(s, o.rounds[0].verdict).state;
      var o' := o.(rounds := o.rounds[1..]);
      Walk(PostValidationNode, s, o) ==
        if o.rounds[0].verdict == "Valid" then Prepend([PostValidationNode], Walk(HumanFeedbackNode, t, o'))
        else Prepend([PostValidationNode], Walk(GeneratePostNode, t, o'))
  {
  }

  lemma WalkHumanFeedback(s: Snapshot, o: Oracle)
    requires s.drafts != []
    ensures var t := HumanFeedback(s, o.sentiment).state;
      Walk(HumanFeedbackNode, s, o) ==
        if o.sentiment == "positive" then Walked(t, Finished, [HumanFeedbackNode])
        else Prepend([HumanFeedbackNode], Walk(CollectFeedbackNode, t, o))
  {
  }

  lemma WalkCollectFeedback(s: Snapshot, o: Oracle)
    requires s.drafts != []
    ensures Walk(CollectFeedbackNode, s, o)
      == Walked(Post(CollectFeedback(s, o.revision).state), Finished, [CollectFeedbackNode, PostNode])
  {
  }

  /**
   * Along a whole walk every node only appends: the earlier history and drafts are
   * prefixes of the later ones, every completed node but `input_node` adds one entry,
   * each generation adds one draft, and neither the user's input fields nor the
   * feedback change.
   */
  lemma {:induction false} WalkOnlyAppends(at: Node, s: Snapshot, o: Oracle)
    ensures var w := Walk(at, s, o);
      && s.history <= w.final.history
      && s.drafts <= w.final.drafts
      && |w.final.history| == |s.history| + |w.trace| - Count(w.trace, InputNode)
      && |w.final.drafts| == |s.drafts| + Count(w.trace, GeneratePostNode)
      && w.final.topic == s.topic && w.final.tone == s.tone && w.final.audience == s.audience
      && w.final.feedback == s.feedback
    decreases |o.rounds|, Rank(at)
  {
    StepEffects(at, s, o);
    match Step(at, s, o)
    case Halted(t, h) =>
    case Move(t, o', next) =>
      if next.To? {
        WalkOnlyAppends(next.node, t, o');
        var rest := Walk(next.node, t, o');
        CountConcat([at], rest.trace, InputNode);
        CountConcat([at], rest.trace, GeneratePostNode);
      }
  }

  /**
   * A walk follows the edge table: its trace starts at the node it started from, every
   * node in it is followed by one of that node's successors, and a walk that reaches
   * `END` does so from a node with an edge to `END`.
   */
  lemma {:induction false} WalkFollowsEdges(at: Node, s: Snapshot, o: Oracle)
    ensures var w := Walk(at, s, o);
      && (w.trace != [] ==> w.trace[0] == at)
      && (forall i :: 0 <= i < |w.trace| - 1 ==> To(w.trace[i + 1]) in Successors(w.trace[i]))
      && (w.halt == Finished ==> w.trace != [] && End in Successors(w.trace[|w.trace| - 1]))
    decreases |o.rounds|, Rank(at)
  {
    match Step(at, s, o)
    case Halted(t, h) =>
    case Move(t, o', next) =>
      if next.To? {
        WalkFollowsEdges(next.node, t, o');
        var rest := Walk(next.node, t, o');
        var w := Walk(at, s, o);
        assert w.trace == [at] + rest.trace;
        forall i | 0 <= i < |w.trace| - 1 ensures To(w.trace[i + 1]) in Successors(w.trace[i]) {
          if i > 0 {
            assert w.trace[i] == rest.trace[i - 1] && w.trace[i + 1] == rest.trace[i];
          }
        }
      }
  }

  /** A validator reply that contains "invalid" in any letter case passes the input on. */
  lemma InvalidReplyPasses(s: Snapshot, response: string)
    requires Contains(Lower(response), "invalid")
    ensures Validator(s, response).validation == Some("Valid")
    ensures ValidationRouter(Validator(s, response).validation) == To(GeneratePostNode)
  {
    InvalidContainsValid(Lower(response));
  }

  /** The replies "Invalid" and " INVALID\n" count as valid; the reply "No" does not. */
  lemma ValidatorExamples(s: Snapshot, response: string)
    requires response == "Invalid" || response == " INVALID\n" || response == "No"
    ensures Validator(s, response).validation == Some(if response == "No" then "Invalid" else "Valid")
  {
    if response == "Invalid" {
      assert Lower(response) == "invalid";
      assert OccursAt(Lower(response), "invalid", 0);
      InvalidReplyPasses(s, response);
    } else if response == " INVALID\n" {
      assert Lower(response) == " invalid\n";
      assert OccursAt(Lower(response), "invalid", 1);
      InvalidReplyPasses(s, response);
    }
  }

  /**
   * A rejected input ends the run right after `validator_node`: no draft is generated
   * and only the validator's entry is added to the history.
   */
  lemma RejectedInputEndsRun(s: Snapshot, o: Oracle)
    requires !Contains(Lower(o.validity), "valid")
    ensures var w := Walk(InputNode, s, o);
      && w.halt == Finished
      && w.trace == [InputNode, ValidatorNode]
      && w.final.drafts == s.drafts
      && w.final.validation == Some("Invalid")
      && w.final.history == s.history + [AI(ValidationPrefix + o.validity)]
  {
    WalkInput(s, o);
    WalkValidator(s, o);
  }

  /**
   * An accepted input leads to exactly one generation before post-validation runs: the
   * walk goes on from `post_validation_node` with the first post appended to the drafts.
   */
  lemma AcceptedInputGeneratesOnce(s: Snapshot, o: Oracle)
    requires Contains(Lower(o.validity), "valid") && o.rounds != []
    ensures var t := GeneratePost(Validator(s, o.validity), o.rounds[0].post, o.rounds[0].userId);
      && t.drafts == s.drafts + [o.rounds[0].post]
      && Walk(InputNode, s, o) == Prepend([InputNode, ValidatorNode, GeneratePostNode], Walk(PostValidationNode, t, o))
  {
    var v := WalkAccepted(s, o);
    var t := GeneratePost(v, o.rounds[0].post, o.rounds[0].userId);
    WalkGenerate(v, o);
    PrependTwice([InputNode, ValidatorNode], [GeneratePostNode], Walk(PostValidationNode, t, o));
    assert [InputNode, ValidatorNode] + [GeneratePostNode] == [InputNode, ValidatorNode, GeneratePostNode];
  }

  /** Running `p` before `q` before a walk is running `p + q` before it. */
  lemma PrependTwice(p: seq<Node>, q: seq<Node>, w: Walked)
    ensures Prepend(p, Prepend(q, w)) == Prepend(p + q, w)
  {
    assert p + (q + w.trace) == (p + q) + w.trace;
  }

  /** An accepted input runs `input_node` and `validator_node` and goes on to generation. */
  lemma WalkAccepted(s: Snapshot, o: Oracle) returns (v: Snapshot)
    requires Contains(Lower(o.validity), "valid")
    ensures v == Validator(s, o.validity) && v.drafts == s.drafts
    ensures Walk(InputNode, s, o) == Prepend([InputNode, ValidatorNode], Walk(GeneratePostNode, v, o))
  {
    v := Validator(s, o.validity);
    WalkInput(s, o);
    WalkValidator(s, o);
    var tail := Walk(GeneratePostNode, v, o);
    assert [InputNode] + ([ValidatorNode] + tail.trace) == [InputNode, ValidatorNode] + tail.trace;
  }

  /**
   * The post-validation loop does not end on its own: while no verdict is the exact
   * string "Valid", the walk never reaches `human_feedback_node` and stops only when the
   * rounds run out or post-validation raises.
   */
  lemma {:induction false} LoopWithoutValidVerdict(s: Snapshot, o: Oracle)
    requires forall k :: 0 <= k < |o.rounds| ==> o.rounds[k].verdict != "Valid"
    ensures var w := Walk(GeneratePostNode, s, o);
      && (w.halt == OutOfReplies || w.halt.Threw?)
      && HumanFeedbackNode !in w.trace
    decreases |o.rounds|
  {
    if o.rounds != [] {
      var r := o.rounds[0];
      var t := GeneratePost(s, r.post, r.userId);
      WalkGenerate(s, o);
      if HasUserInformation(t) {
        var t' := PostValidation(t, r.verdict).state;
        var o' := o.(rounds := o.rounds[1..]);
        WalkPostValidation(t, o);
        forall k | 0 <= k < |o'.rounds| ensures o'.rounds[k].verdict != "Valid" {
          assert o'.rounds[k] == o.rounds[k + 1];
        }
        LoopWithoutValidVerdict(t', o');
      }
    }
  }

  /**
   * The feedback branch: positive feedback ends the run at once without touching
   * `best_post`; any other sentiment revises the latest draft and publishes it.
   */
  lemma FeedbackBranch(s: Snapshot, o: Oracle)
    requires s.drafts != []
    ensures var w := Walk(HumanFeedbackNode, s, o);
      && w.halt == Finished
      && w.final.drafts == s.drafts && w.final.userId == s.userId
      && (w.trace == [HumanFeedbackNode] <==> o.sentiment == "positive")
      && (o.sentiment == "positive" ==>
            && w.final.bestPost == s.bestPost
            && w.final.currentStep == s.currentStep
            && w.final.history == s.history + [AI(FeedbackEntry(o.sentiment, s.feedback))])
      && (o.sentiment != "positive" ==>
            && w.trace == [HumanFeedbackNode, CollectFeedbackNode, PostNode]
            && w.final.bestPost == Some(o.revision)
            && w.final.currentStep == Some("Collecting feedback from human")
            && w.final.history == s.history + [AI(FeedbackEntry(o.sentiment, s.feedback)),
                                               AI(RevisedPrefix + o.revision), AI(PublishedEntry)])
  {
    WalkHumanFeedback(s, o);
    if o.sentiment != "positive" {
      var t := HumanFeedback(s, o.sentiment).state;
      WalkCollectFeedback(t, o);
    }
  }

  /**
   * What the loop needs of the feedback branch: it finishes without generating again and
   * keeps the drafts and the user id.
   */
  lemma FeedbackFinishes(s: Snapshot, o: Oracle)
    requires s.drafts != []
    ensures var w := Walk(HumanFeedbackNode, s, o);
      && w.halt == Finished && w.trace[0] == HumanFeedbackNode && Count(w.trace, GeneratePostNode) == 0
      && w.final.drafts == s.drafts && w.final.userId == s.userId
  {
    FeedbackBranch(s, o);
    var w := Walk(HumanFeedbackNode, s, o);
    assert w.trace == [HumanFeedbackNode] || w.trace == [HumanFeedbackNode, CollectFeedbackNode, PostNode];
    CountAbsent(w.trace, GeneratePostNode);
  }

  /** Without a draft, `human_feedback_node` raises and the walk stops where it was. */
  lemma FeedbackWithoutDraftRaises(s: Snapshot, o: Oracle)
    requires s.drafts == []
    ensures Walk(HumanFeedbackNode, s, o) == Walked(s, Threw(ValueError("No drafts found for user!")), [])
  {
  }

  /** Occurrences in a concatenation add up. */
  lemma {:induction false} CountConcat(p: seq<Node>, q: seq<Node>, n: Node)
    ensures Count(p + q, n) == Count(p, n) + Count(q, n)
  {
    if p == [] {
      assert p + q == q;
    } else {
      assert (p + q)[1..] == p[1..] + q;
      CountConcat(p[1..], q, n);
    }
  }

  /** The posts of a sequence of rounds, in order. */
  function Posts(rounds: seq<Round>): (posts: seq<string>)
    ensures |posts| == |rounds|
    ensures forall i :: 0 <= i < |rounds| ==> posts[i] == rounds[i].post
  {
    seq(|rounds|, i requires 0 <= i < |rounds| => rounds[i].post)
  }

  /** The posts of the first `k + 1` rounds: the first round's, then those of the next `k`. */
  lemma PostsCons(rounds: seq<Round>, k: nat)
    requires k < |rounds|
    ensures Posts(rounds[..k + 1]) == [rounds[0].post] + Posts(rounds[1..][..k])
  {
    assert rounds[..k + 1] == [rounds[0]] + rounds[1..][..k];
  }

  /** A node that does not occur is counted zero times. */
  lemma {:induction false} CountAbsent(t: seq<Node>, n: Node)
    requires n !in t
    ensures Count(t, n) == 0
  {
    if t != [] {
      assert t[0] != n;
      CountAbsent(t[1..], n);
    }
  }

  /**
   * One pass of the loop: `generate_post_node` with the first round's post and id, then
   * `post_validation_node` with its verdict, which decides where the walk goes on.
   */
  lemma LoopPass(s: Snapshot, o: Oracle) returns (t: Snapshot, next: Node)
    requires s.topic != "" && s.tone != [] && s.audience != [] && o.rounds != []
    ensures t.topic == s.topic && t.tone == s.tone && t.audience == s.audience
    ensures t.drafts == s.drafts + [o.rounds[0].post] && t.userId == o.rounds[0].userId
    ensures t.feedback == s.feedback && t.bestPost == s.bestPost
    ensures t.history == s.history + [AI(GeneratedPrefix + o.rounds[0].post), AI(PostValidationPrefix + o.rounds[0].verdict)]
    ensures next == if o.rounds[0].verdict == "Valid" then HumanFeedbackNode else GeneratePostNode
    ensures Walk(GeneratePostNode, s, o) ==
      Prepend([GeneratePostNode, PostValidationNode], Walk(next, t, o.(rounds := o.rounds[1..])))
  {
    t := PassEffects(s, o.rounds[0]);
    next := PassWalk(s, o);
  }

  /** The state one pass of the loop leaves behind. */
  lemma PassEffects(s: Snapshot, r: Round) returns (t: Snapshot)
    requires s.topic != "" && s.tone != [] && s.audience != []
    ensures HasUserInformation(GeneratePost(s, r.post, r.userId))
    ensures t == PostValidation(GeneratePost(s, r.post, r.userId), r.verdict).state
    ensures t.topic == s.topic && t.tone == s.tone && t.audience == s.audience
    ensures t.drafts == s.drafts + [r.post] && t.userId == r.userId
    ensures t.feedback == s.feedback && t.bestPost == s.bestPost
    ensures t.history == s.history + [AI(GeneratedPrefix + r.post), AI(PostValidationPrefix + r.verdict)]
  {
    var g := GeneratePost(s, r.post, r.userId);
    t := PostValidation(g, r.verdict).state;
  }

  /** Where the walk goes on after one pass of the loop. */
  lemma PassWalk(s: Snapshot, o: Oracle) returns (next: Node)
    requires s.topic != "" && s.tone != [] && s.audience != [] && o.rounds != []
    ensures next == if o.rounds[0].verdict == "Valid" then HumanFeedbackNode else GeneratePostNode
    ensures var r := o.rounds[0];
      Walk(GeneratePostNode, s, o) ==
        Prepend([GeneratePostNode, PostValidationNode],
                Walk(next, PostValidation(GeneratePost(s, r.post, r.userId), r.verdict).state, o.(rounds := o.rounds[1..])))
  {
    var r := o.rounds[0];
    var g := GeneratePost(s, r.post, r.userId);
    var t := PostValidation(g, r.verdict).state;
    next := if r.verdict == "Valid" then HumanFeedbackNode else GeneratePostNode;
    WalkGenerate(s, o);
    WalkPostValidation(g, o);
    var tail := Walk(next, t, o.(rounds := o.rounds[1..]));
    assert [GeneratePostNode] + ([PostValidationNode] + tail.trace) == [GeneratePostNode, PostValidationNode] + tail.trace;
  }

  /** The rounds after the first keep the first `k - 1` rejections of the rest. */
  lemma LaterRounds(o: Oracle, k: nat)
    requires 0 < k < |o.rounds|
    requires forall j :: 0 <= j < k ==> o.rounds[j].verdict != "Valid"
    ensures o.rounds[1..][k - 1].verdict == o.rounds[k].verdict
    ensures forall j :: 0 <= j < k - 1 ==> o.rounds[1..][j].verdict != "Valid"
  {
    forall j | 0 <= j < k - 1 ensures o.rounds[1..][j].verdict != "Valid" {
      assert o.rounds[1..][j] == o.rounds[j + 1];
    }
  }

  /**
   * The first exact "Valid" verdict ends the loop: with the user's input fields filled
   * in and round `k` the first accepted one, the walk generates `k + 1` drafts and then
   * reaches `human_feedback_node`.
   */
  lemma {:induction false} FirstValidVerdictEndsLoop(s: Snapshot, o: Oracle, k: nat)
    requires s.topic != "" && s.tone != [] && s.audience != []
    requires k < |o.rounds| && o.rounds[k].verdict == "Valid"
    requires forall j :: 0 <= j < k ==> o.rounds[j].verdict != "Valid"
    ensures var w := Walk(GeneratePostNode, s, o);
      && w.halt == Finished
      && HumanFeedbackNode in w.trace
      && Count(w.trace, GeneratePostNode) == k + 1
    decreases k
  {
    var t', next := LoopPass(s, o);
    var o' := o.(rounds := o.rounds[1..]);
    var tail: Walked;
    if k == 0 {
      FeedbackFinishes(t', o');
      tail := Walk(HumanFeedbackNode, t', o');
    } else {
      LaterRounds(o, k);
      FirstValidVerdictEndsLoop(t', o', k - 1);
      tail := Walk(GeneratePostNode, t', o');
    }
    CountConcat([GeneratePostNode, PostValidationNode], tail.trace, GeneratePostNode);
  }

  /**
   * On that same run the drafts are the earlier ones followed by the posts of rounds
   * `0..k`, in order, and the user id is the one drawn by the last generation.
   */
  lemma {:induction false} LoopKeepsEveryDraft(s: Snapshot, o: Oracle, k: nat)
    requires s.topic != "" && s.tone != [] && s.audience != []
    requires k < |o.rounds| && o.rounds[k].verdict == "Valid"
    requires forall j :: 0 <= j < k ==> o.rounds[j].verdict != "Valid"
    ensures var w := Walk(GeneratePostNode, s, o);
      && w.final.drafts == s.drafts + Posts(o.rounds[..k + 1])
      && w.final.userId == o.rounds[k].userId
    decreases k
  {
    var t', next := LoopPass(s, o);
    var o' := o.(rounds := o.rounds[1..]);
    var rest := Walk(next, t', o');
    var later := Posts(o'.rounds[..k]);
    if k == 0 {
      FeedbackFinishes(t', o');
      assert rest.final.drafts == t'.drafts + later;
    } else {
      LaterRounds(o, k);
      LoopKeepsEveryDraft(t', o', k - 1);
    }
    PostsCons(o.rounds, k);
    assert t'.drafts + later == s.drafts + ([o.rounds[0].post] + later);
  }

  /**
   * A walk from generation that reaches `END` has passed `human_feedback_node`, and its
   * last step is either post-validation (positive feedback) or the revision.
   */
  lemma {:induction false} GenerationFinishesAfterFeedback(s: Snapshot, o: Oracle)
    ensures var w := Walk(GeneratePostNode, s, o);
      w.halt == Finished ==>
        && HumanFeedbackNode in w.trace
        && (w.final.currentStep == Some("post_validation")
            || w.final.currentStep == Some("Collecting feedback from human"))
    decreases |o.rounds|
  {
    if o.rounds != [] {
      var r := o.rounds[0];
      var t := GeneratePost(s, r.post, r.userId);
      WalkGenerate(s, o);
      if HasUserInformation(t) {
        var t' := PostValidation(t, r.verdict).state;
        var o' := o.(rounds := o.rounds[1..]);
        WalkPostValidation(t, o);
        if r.verdict == "Valid" {
          FeedbackBranch(t', o');
        } else {
          GenerationFinishesAfterFeedback(t', o');
        }
      }
    }
  }

  /** The input of the scenarios below: a fresh session with the user's choices filled in. */
  function ScenarioStart(topic: string, tone: seq<string>, audience: seq<string>, feedback: Option<string>): Snapshot {
    Initial().(topic := topic, tone := tone, audience := audience, feedback := feedback)
  }

  /** The validator accepts the reply "Valid". */
  lemma ValidAccepted(s: Snapshot, response: string)
    requires response == "Valid"
    ensures Validator(s, response).validation == Some("Valid")
  {
    assert Lower(response) == "valid";
    assert OccursAt(Lower(response), "valid", 0);
  }

  /**
   * Every reply favourable and the feedback positive: four entries (validation, post,
   * post-validation, positive feedback), no publication, `best_post` still unset.
   */
  lemma PositiveScenario(topic: string, tone: seq<string>, audience: seq<string>,
                         feedback: string, o: Oracle)
    requires topic != "" && tone != [] && audience != [] && feedback != ""
    requires o.validity == "Valid" && |o.rounds| == 1 && o.rounds[0].verdict == "Valid"
    requires o.sentiment == "positive"
    ensures var w := Walk(InputNode, ScenarioStart(topic, tone, audience, Some(feedback)), o);
      && w.halt == Finished
      && w.trace == [InputNode, ValidatorNode, GeneratePostNode, PostValidationNode, HumanFeedbackNode]
      && w.final.history == [AI(ValidationPrefix + "Valid"),
                             AI(GeneratedPrefix + o.rounds[0].post),
                             AI(PostValidationPrefix + "Valid"),
                             AI(PositivePrefix + feedback)]
      && w.final.drafts == [o.rounds[0].post]
      && w.final.bestPost == None
  {
    var s := ScenarioStart(topic, tone, audience, Some(feedback));
    ValidAccepted(s, o.validity);
    var v := WalkAccepted(s, o);
    var t, next := LoopPass(v, o);
    var o1 := o.(rounds := o.rounds[1..]);
    FeedbackBranch(t, o1);
    PrependTwice([InputNode, ValidatorNode], [GeneratePostNode, PostValidationNode], Walk(HumanFeedbackNode, t, o1));
    assert ([InputNode, ValidatorNode] + [GeneratePostNode, PostValidationNode]) + [HumanFeedbackNode]
      == [InputNode, ValidatorNode, GeneratePostNode, PostValidationNode, HumanFeedbackNode];
  }

  /**
   * The same run with negative feedback: six entries ending in the revised post and the
   * publication, with `best_post` set to the revision.
   */
  lemma NegativeScenario(topic: string, tone: seq<string>, audience: seq<string>,
                         feedback: string, o: Oracle)
    requires topic != "" && tone != [] && audience != [] && feedback != ""
    requires o.validity == "Valid" && |o.rounds| == 1 && o.rounds[0].verdict == "Valid"
    requires o.sentiment == "negative"
    ensures var w := Walk(InputNode, ScenarioStart(topic, tone, audience, Some(feedback)), o);
      && w.halt == Finished
      && w.trace == [InputNode, ValidatorNode, GeneratePostNode, PostValidationNode,
                     HumanFeedbackNode, CollectFeedbackNode, PostNode]
      && w.final.history == [AI(ValidationPrefix + "Valid"),
                             AI(GeneratedPrefix + o.rounds[0].post),
                             AI(PostValidationPrefix + "Valid"),
                             AI(NegativePrefix + feedback),
                             AI(RevisedPrefix + o.revision),
                             AI(PublishedEntry)]
      && w.final.bestPost == Some(o.revision)
  {
    var s := ScenarioStart(topic, tone, audience, Some(feedback));
    ValidAccepted(s, o.validity);
    var v := WalkAccepted(s, o);
    var t, next := LoopPass(v, o);
    var o1 := o.(rounds := o.rounds[1..]);
    FeedbackBranch(t, o1);
    PrependTwice([InputNode, ValidatorNode], [GeneratePostNode, PostValidationNode], Walk(HumanFeedbackNode, t, o1));
    assert ([InputNode, ValidatorNode] + [GeneratePostNode, PostValidationNode])
             + [HumanFeedbackNode, CollectFeedbackNode, PostNode]
      == [InputNode, ValidatorNode, GeneratePostNode, PostValidationNode,
          HumanFeedbackNode, CollectFeedbackNode, PostNode];
  }

  /**
   * One rejected draft and then an accepted one: generation runs twice, both drafts are
   * kept in order, the user id is the second one, and feedback that was never given is
   * echoed as "None".
   */
  lemma RetryScenario(topic: string, tone: seq<string>, audience: seq<string>, o: Oracle)
    requires topic != "" && tone != [] && audience != []
    requires o.validity == "Valid" && |o.rounds| == 2
    requires o.rounds[0].verdict == "Invalid" && o.rounds[1].verdict == "Valid"
    requires o.sentiment == "positive"
    ensures var w := Walk(InputNode, ScenarioStart(topic, tone, audience, None), o);
      && w.halt == Finished
      && w.trace == [InputNode, ValidatorNode, GeneratePostNode, PostValidationNode,
                     GeneratePostNode, PostValidationNode, HumanFeedbackNode]
      && w.final.drafts == [o.rounds[0].post, o.rounds[1].post]
      && w.final.userId == o.rounds[1].userId
      && |w.final.history| == 6
      && w.final.history[5] == AI(FeedbackPrefix + "None")
  {
    var s := ScenarioStart(topic, tone, audience, None);
    ValidAccepted(s, o.validity);
    var v := WalkAccepted(s, o);
    var o1 := o.(rounds := o.rounds[1..]);
    var o2 := o1.(rounds := o1.rounds[1..]);
    var t1, n1 := LoopPass(v, o);
    var t2, n2 := LoopPass(t1, o1);
    FeedbackBranch(t2, o2);
    PrependTwice([GeneratePostNode, PostValidationNode], [GeneratePostNode, PostValidationNode], Walk(HumanFeedbackNode, t2, o2));
    PrependTwice([InputNode, ValidatorNode], [GeneratePostNode, PostValidationNode, GeneratePostNode, PostValidationNode],
                 Walk(HumanFeedbackNode, t2, o2));
    assert [GeneratePostNode, PostValidationNode] + [GeneratePostNode, PostValidationNode]
      == [GeneratePostNode, PostValidationNode, GeneratePostNode, PostValidationNode];
    assert ([InputNode, ValidatorNode] + [GeneratePostNode, PostValidationNode, GeneratePostNode, PostValidationNode])
             + [HumanFeedbackNode]
      == [InputNode, ValidatorNode, GeneratePostNode, PostValidationNode,
          GeneratePostNode, PostValidationNode, HumanFeedbackNode];
  }
}
