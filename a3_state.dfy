/**
 * The nested state of the A3 system (a3/states/a3_state.py): a manager, two
 * reviewable generators and a reviewer, each with its own conversation,
 * and the initialisation that seeds every conversation with two system
 * messages: the role's prompt body and the input text.
 */
module A3States {
  import opened Wrappers
  import opened Values
  import opened PromptConfigs
  import A3PromptBuilder

  /** A plain conversation. */
  datatype Conversation = Conversation(messages: seq<Message>)

  /** The manager: a conversation and the brief it writes. */
  datatype Manager = Manager(brief: Option<string>, messages: seq<Message>)

  datatype Status = Pending | Approved | NeedsRevision

  /** A generator whose draft the reviewer approves or sends back. */
  datatype Reviewable = Reviewable(draft: Option<string>, status: Status, feedback: Option<string>, messages: seq<Message>)

  /** The default of every reviewable: no draft, pending, no feedback, no messages. */
  const FreshReviewable: Reviewable := Reviewable(None, Pending, None, [])

  const ManagerInputLead: string := "Here's your input text:\n\n"
  const TitleInputLead: string := "Here's your input text for title generation:\n\n"
  const TldrInputLead: string := "Here's your input text for TL;DR generation:\n\n"
  const ReviewerInputLead: string := "Here's your input text for review work:\n\n"

  /** The two system messages a role starts with: its prompt body, then the input under the role's lead. */
  function Seed(body: string, lead: string, input: string): seq<Message> {
    [SystemMessage(body), SystemMessage(lead + input)]
  }

  /** The A3 state; `input_text` and `max_revisions` are required, the rest default. */
  class A3State {
    var inputText: string
    var manager: Manager
    var titleGenerator: Reviewable
    var tldrGenerator: Reviewable
    var reviewer: Conversation
    var revisionRound: Option<int>
    var maxRevisions: Option<int>

    constructor (inputText: string, maxRevisions: Option<int>)
      ensures this.inputText == inputText && this.maxRevisions == maxRevisions
      ensures manager == Manager(None, [])
      ensures titleGenerator == FreshReviewable && tldrGenerator == FreshReviewable
      ensures reviewer == Conversation([])
      ensures revisionRound == Some(0)
    {
      this.inputText := inputText;
      this.maxRevisions := maxRevisions;
      manager := Manager(None, []);
      titleGenerator := FreshReviewable;
      tldrGenerator := FreshReviewable;
      reviewer := Conversation([]);
      revisionRound := Some(0);
    }
  }

  /**
   * Build the state and seed the four conversations.  The prompt bodies are
   * built without input data; the reasoning strategies are the table the
   * prompt builder loads from its file.
   */
  method InitializeA3State(inputText: string, managerConfig: PromptConfig, titleConfig: PromptConfig,
                           tldrConfig: PromptConfig, reviewerConfig: PromptConfig, maxRevisions: int,
                           strategies: map<string, string>)
    returns (st: A3State)
    ensures fresh(st)
    ensures st.inputText == inputText && st.maxRevisions == Some(maxRevisions) && st.revisionRound == Some(0)
    ensures st.manager == Manager(None, Seed(A3PromptBuilder.PromptBody(managerConfig, "", strategies), ManagerInputLead, inputText))
    ensures st.titleGenerator == FreshReviewable.(messages := Seed(A3PromptBuilder.PromptBody(titleConfig, "", strategies), TitleInputLead, inputText))
    ensures st.tldrGenerator == FreshReviewable.(messages := Seed(A3PromptBuilder.PromptBody(tldrConfig, "", strategies), TldrInputLead, inputText))
    ensures st.reviewer == Conversation(Seed(A3PromptBuilder.PromptBody(reviewerConfig, "", strategies), ReviewerInputLead, inputText))
  {
    st := new A3State(inputText, Some(maxRevisions));
    var managerBody := A3PromptBuilder.BuildPromptBody(managerConfig, "", strategies);
    st.manager := st.manager.(messages := [SystemMessage(managerBody), SystemMessage(ManagerInputLead + inputText)]);
    var titleBody := A3PromptBuilder.BuildPromptBody(titleConfig, "", strategies);
    st.titleGenerator := st.titleGenerator.(messages := [SystemMessage(titleBody), SystemMessage(TitleInputLead + inputText)]);
    var tldrBody := A3PromptBuilder.BuildPromptBody(tldrConfig, "", strategies);
    st.tldrGenerator := st.tldrGenerator.(messages := [SystemMessage(tldrBody), SystemMessage(TldrInputLead + inputText)]);
    var reviewerBody := A3PromptBuilder.BuildPromptBody(reviewerConfig, "", strategies);
    st.reviewer := st.reviewer.(messages := [SystemMessage(reviewerBody), SystemMessage(ReviewerInputLead + inputText)]);
  }
}
