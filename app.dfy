/**
 * The parts of app.py that read and feed the workflow: the prefix classifier of chat
 * entries, the badge each category gets, and the rule that turns a pending chat message
 * into history and, at the right step, into feedback.
 */
module App {
  import opened Wrappers
  import opened Text
  import opened Workflow
  import opened Runs
  import opened Agent

  // The anchored patterns `get_message_category` matches.
  const OriginalPattern := "Generated Post: "
  const RevisionPattern := "Generated post based on feedback:"
  const ValidationPattern := "Post Validation Node:"
  const PositivePattern := "Positive feedback received:"
  const NegativePattern := "Negative feedback received:"

  /** The four categories the chat view tags entries with. */
  predicate IsCategory(c: Option<string>) {
    c == Some("original") || c == Some("feedback") || c == Some("validation") || c == Some("feedback-user")
  }

  /**
   * `get_message_category`: an assistant entry is tagged by the first pattern its text
   * starts with; a user entry, or an assistant entry matching none, is untagged. No text
   * starts with two of the patterns, so each tag holds exactly when its own pattern
   * matches, whatever the order of the tests.
   */
  function MessageCategory(m: Message): (c: Option<string>)
    ensures m.Human? ==> c == None
    ensures c == Some("original") <==> m.AI? && StartsWith(m.content, OriginalPattern)
    ensures c == Some("feedback") <==> m.AI? && StartsWith(m.content, RevisionPattern)
    ensures c == Some("validation") <==> m.AI? && StartsWith(m.content, ValidationPattern)
    ensures c == Some("feedback-user") <==>
      m.AI? && (StartsWith(m.content, PositivePattern) || StartsWith(m.content, NegativePattern))
    ensures c == None || IsCategory(c)
  {
    var s := m.content;
    assert !(StartsWith(s, OriginalPattern) && StartsWith(s, RevisionPattern)) by {
      PrefixesClash(s, OriginalPattern, RevisionPattern, 10);
    }
    assert !(StartsWith(s, OriginalPattern) && StartsWith(s, ValidationPattern)) by {
      PrefixesClash(s, OriginalPattern, ValidationPattern, 0);
    }
    assert !(StartsWith(s, OriginalPattern) && StartsWith(s, PositivePattern)) by {
      PrefixesClash(s, OriginalPattern, PositivePattern, 0);
    }
    assert !(StartsWith(s, OriginalPattern) && StartsWith(s, NegativePattern)) by {
      PrefixesClash(s, OriginalPattern, NegativePattern, 0);
    }
    assert !(StartsWith(s, RevisionPattern) && StartsWith(s, ValidationPattern)) by {
      PrefixesClash(s, RevisionPattern, ValidationPattern, 0);
    }
    assert !(StartsWith(s, RevisionPattern) && StartsWith(s, PositivePattern)) by {
      PrefixesClash(s, RevisionPattern, PositivePattern, 0);
    }
    assert !(StartsWith(s, RevisionPattern) && StartsWith(s, NegativePattern)) by {
      PrefixesClash(s, RevisionPattern, NegativePattern, 0);
    }
    assert !(StartsWith(s, ValidationPattern) && StartsWith(s, PositivePattern)) by {
      PrefixesClash(s, ValidationPattern, PositivePattern, 3);
    }
    assert !(StartsWith(s, ValidationPattern) && StartsWith(s, NegativePattern)) by {
      PrefixesClash(s, ValidationPattern, NegativePattern, 0);
    }
    if m.AI? then
      if StartsWith(s, OriginalPattern) then Some("original")
      else if StartsWith(s, RevisionPattern) then Some("feedback")
      else if StartsWith(s, ValidationPattern) then Some("validation")
      else if StartsWith(s, PositivePattern) || StartsWith(s, NegativePattern) then Some("feedback-user")
      else None
    else None
  }

  /** `get_badge_html`: the badge markup for a category, empty for anything else. */
  function BadgeHtml(category: Option<string>): (html: string)
    ensures html != "" <==> IsCategory(category)
  {
    if category == Some("original") then "<span class=\"badge badge-original\">Original Post</span>"
    else if category == Some("feedback") then "<span class=\"badge badge-feedback\">Generated Post Based on Feedback</span>"
    else if category == Some("validation") then "<span class=\"badge badge-validation\">Validation</span>"
    else if category == Some("feedback-user") then "<span class=\"badge badge-feedback-user\">User Feedback</span>"
    else ""
  }

  /** Different categories get different badges. */
  lemma BadgesDistinct(c: Option<string>, d: Option<string>)
    requires IsCategory(c) && IsCategory(d) && c != d
    ensures BadgeHtml(c) != BadgeHtml(d)
  {
  }

  // ---------------------------------------------------------------------------------
  // How the entries each node records are tagged.

  /** A prefix with a different first character rules out a pattern. */
  lemma NotStarting(prefix: string, rest: string, pattern: string, k: nat)
    requires k < |prefix| && k < |pattern| && prefix[k] != pattern[k]
    ensures !StartsWith(prefix + rest, pattern)
  {
    StartsWithConcat(prefix, rest);
    PrefixesClash(prefix + rest, prefix, pattern, k);
  }

  /** The validator's entry is not a validation entry: only post-validation's is. */
  lemma ValidatorEntryUntagged(s: Snapshot, response: string)
    ensures var t := Validator(s, response); MessageCategory(t.history[|t.history| - 1]) == None
  {
    var p := ValidationPrefix;
    NotStarting(p, response, OriginalPattern, 0);
    NotStarting(p, response, RevisionPattern, 0);
    NotStarting(p, response, ValidationPattern, 0);
    NotStarting(p, response, PositivePattern, 0);
    NotStarting(p, response, NegativePattern, 0);
  }

  /** Every entry `generate_post_node` records is tagged "original". */
  lemma GeneratedEntryIsOriginal(s: Snapshot, post: string, userId: string)
    ensures var t := GeneratePost(s, post, userId); MessageCategory(t.history[|t.history| - 1]) == Some("original")
  {
    StartsWithConcat(GeneratedPrefix, post);
  }

  /** Every entry `post_validation_node` records is tagged "validation". */
  lemma PostValidationEntryIsValidation(s: Snapshot, verdict: string)
    requires HasUserInformation(s)
    ensures var t := PostValidation(s, verdict).state;
      MessageCategory(t.history[|t.history| - 1]) == Some("validation")
  {
    assert PostValidationPrefix == ValidationPattern + " Validation result - ";
    assert PostValidationPrefix + verdict == ValidationPattern + (" Validation result - " + verdict);
    StartsWithConcat(ValidationPattern, " Validation result - " + verdict);
  }

  /**
   * The entry of `human_feedback_node` is tagged "feedback-user" exactly when the
   * sentiment is "positive" or "negative" and the feedback is non-empty.
   */
  lemma FeedbackEntryCategory(s: Snapshot, sentiment: string)
    requires s.drafts != []
    ensures var t := HumanFeedback(s, sentiment).state;
      MessageCategory(t.history[|t.history| - 1]) ==
        if (sentiment == "positive" || sentiment == "negative") && Truthy(s.feedback) then Some("feedback-user")
        else None
  {
    if sentiment == "positive" && Truthy(s.feedback) {
      assert PositivePrefix == PositivePattern + " ";
      assert PositivePrefix + s.feedback.value == PositivePattern + (" " + s.feedback.value);
      StartsWithConcat(PositivePattern, " " + s.feedback.value);
    } else if sentiment == "negative" && Truthy(s.feedback) {
      assert NegativePrefix == NegativePattern + " ";
      assert NegativePrefix + s.feedback.value == NegativePattern + (" " + s.feedback.value);
      StartsWithConcat(NegativePattern, " " + s.feedback.value);
    } else {
      var x := Shown(s.feedback);
      NotStarting(FeedbackPrefix, x, OriginalPattern, 0);
      NotStarting(FeedbackPrefix, x, RevisionPattern, 0);
      NotStarting(FeedbackPrefix, x, ValidationPattern, 0);
      NotStarting(FeedbackPrefix, x, PositivePattern, 0);
      NotStarting(FeedbackPrefix, x, NegativePattern, 0);
    }
  }

  /** Every entry `collect_feedback_node` records is tagged "feedback". */
  lemma RevisionEntryIsFeedback(s: Snapshot, revision: string)
    requires s.drafts != []
    ensures var t := CollectFeedback(s, revision).state;
      MessageCategory(t.history[|t.history| - 1]) == Some("feedback")
  {
    assert RevisedPrefix == RevisionPattern + " ";
    assert RevisedPrefix + revision == RevisionPattern + (" " + revision);
    StartsWithConcat(RevisionPattern, " " + revision);
  }

  /**
   * The publication entry of `post` is untagged. (`PublishedEntry` is declared as two
   * concatenated literals because the verifier reads the characters of a shorter literal
   * but not of one this long, and the proof compares single characters.)
   */
  lemma PublishedEntryUntagged(s: Snapshot)
    ensures var t := Post(s); MessageCategory(t.history[|t.history| - 1]) == None
  {
    assert PublishedEntry == PublishedEntry + "";
    NotStarting(PublishedEntry, "", OriginalPattern, 0);
    NotStarting(PublishedEntry, "", RevisionPattern, 0);
    NotStarting(PublishedEntry, "", ValidationPattern, 5);
    NotStarting(PublishedEntry, "", PositivePattern, 3);
    NotStarting(PublishedEntry, "", NegativePattern, 0);
  }

  // ---------------------------------------------------------------------------------
  // Pending chat input

  /** The steps after which a chat message is taken as feedback. */
  predicate AcceptsFeedback(step: Option<string>) {
    step == Some("Collecting feedback from human") || step == Some("post_validation")
  }

  /**
   * The pending-input rule: the message joins the displayed history, the workflow state
   * takes that history, and the message becomes the feedback only after post-validation
   * or a revision.
   */
  function AcceptInput(s: Snapshot, shown: seq<Message>, input: string): (t: Snapshot)
    ensures t.history == shown + [Human(input)]
    ensures t.feedback == (if AcceptsFeedback(s.currentStep) then Some(input) else s.feedback)
    ensures t == s.(history := t.history, feedback := t.feedback)
  {
    s.(history := shown + [Human(input)],
       feedback := if AcceptsFeedback(s.currentStep) then Some(input) else s.feedback)
  }

  /**
   * A run that reaches `END` leaves the chat ready to take the next message as feedback
   * exactly when it went through `human_feedback_node`; after a rejected input it does not.
   */
  lemma FinishedRunAcceptsFeedback(s: Snapshot, o: Oracle)
    ensures var w := Walk(InputNode, s, o);
      w.halt == Finished ==> (AcceptsFeedback(w.final.currentStep) <==> HumanFeedbackNode in w.trace)
  {
    WalkInput(s, o);
    WalkValidator(s, o);
    var t := Validator(s, o.validity);
    if t.validation == Some("Valid") {
      GenerationFinishesAfterFeedback(t, o);
    }
  }

  /**
   * Feedback accepted from the chat reaches `human_feedback_node` unchanged and, for a
   * positive or negative sentiment, comes back as an entry tagged "feedback-user" that
   * quotes it.
   */
  lemma AcceptedFeedbackIsEchoed(s: Snapshot, shown: seq<Message>, input: string, sentiment: string)
    requires AcceptsFeedback(s.currentStep) && input != "" && s.drafts != []
    requires sentiment == "positive" || sentiment == "negative"
    ensures var t := HumanFeedback(AcceptInput(s, shown, input), sentiment).state;
      && t.history[|t.history| - 1] == AI((if sentiment == "positive" then PositivePrefix else NegativePrefix) + input)
      && MessageCategory(t.history[|t.history| - 1]) == Some("feedback-user")
  {
    FeedbackEntryCategory(AcceptInput(s, shown, input), sentiment);
  }

  /** The Streamlit session: its displayed history, the pending chat message, and the workflow state. */
  class Session {
    var history: seq<Message>
    var pending: Option<string>
    var state: AgentState

    /** A new session, with the state app.py initialises. */
    constructor ()
      ensures history == [] && pending == None && fresh(state) && state.Value() == Initial()
    {
      history := [];
      pending := None;
      state := new AgentState(Initial());
    }

    /** Takes the pending message, if any, into the history and, at the right step, the feedback. */
    method AcceptPending() returns (input: Option<string>)
      modifies this, state
      ensures state == old(state) && pending == None && input == old(pending)
      ensures input.None? ==> history == old(history) && state.Value() == old(state.Value())
      ensures input.Some? ==>
        && history == old(history) + [Human(input.value)]
        && state.Value() == AcceptInput(old(state.Value()), old(history), input.value)
    {
      input := pending;
      if pending.Some? {
        var message := pending.value;
        pending := None;
        history := history + [Human(message)];
        state.history := history;
        if state.currentStep == Some("Collecting feedback from human") || state.currentStep == Some("post_validation") {
          state.feedback := Some(message);
        }
      }
    }

    /**
     * Processes a pending message: accepts it, invokes the graph on the state, and shows
     * the history the run leaves.
     */
    method ProcessPending(o: Oracle) returns (input: Option<string>, halt: Halt)
      modifies this, state
      ensures state == old(state) && pending == None && input == old(pending)
      ensures input.None? ==> history == old(history) && state.Value() == old(state.Value())
      ensures input.Some? ==>
        && Walk(InputNode, AcceptInput(old(state.Value()), old(history), input.value), o).final == state.Value()
        && Walk(InputNode, AcceptInput(old(state.Value()), old(history), input.value), o).halt == halt
        && history == state.history
    {
      halt := Finished;
      input := AcceptPending();
      if input.Some? {
        var trace;
        halt, trace := state.Run(o);
        history := state.history;
      }
    }
  }
}
