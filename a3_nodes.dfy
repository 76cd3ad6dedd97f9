/**
 * a3/nodes/a3_nodes.py: the manager, the two generators, the reviewer and
 * the reviewer's router of the title/TL;DR pipeline.  Each node is a
 * function from the state to a sparse update; the model's reply is a
 * parameter.  The nodes read and write flat fields (`title_approved`,
 * `title_gen_messages`, ...), which is what `Field` lists.
 */
module A3Nodes {
  import opened Values
  import opened Merge
  import opened Strings
  import opened Graph

  // Node names (a3/constants.py).
  const ManagerName: string := "manager"
  const TitleGeneratorName: string := "title_generator"
  const TldrGeneratorName: string := "tldr_generator"
  const ReviewerName: string := "reviewer"

  /** The flat state fields the nodes read and write. */
  datatype Field =
    | ManagerMessages | ManagerBrief
    | TitleGenMessages | TldrGenMessages | ReviewerMessages
    | Title | Tldr | TitleFeedback | TldrFeedback
    | TitleApproved | TldrApproved | NeedsRevision
    | RevisionRound | MaxRevisions

  type State = map<Field, Value>
  type Update = map<Field, Value>

  /** Message histories are appended to (as `add_messages` does); every other field is replaced. */
  function Schema(): map<Field, Reducer> {
    map[ManagerMessages := Append, TitleGenMessages := Append, TldrGenMessages := Append, ReviewerMessages := Append]
  }

  /** The model's structured verdict (a3/nodes/output_types.py). */
  datatype ReviewOutput = ReviewOutput(tldrApproved: bool, tldrFeedback: string, titleApproved: bool, titleFeedback: string)

  /** `revision_round` and `max_revisions` hold integers, as the reviewer's comparison needs. */
  predicate Typed(s: State) {
    Get(s, RevisionRound).VInt? && Get(s, MaxRevisions).VInt?
  }

  function Round(s: State): int {
    IntOf(Get(s, RevisionRound))
  }

  function MaxRounds(s: State): int {
    IntOf(Get(s, MaxRevisions))
  }

  // ---------------------------------------------------------------------------
  // Manager

  /** The brief the manager hands on, built from the stripped model reply. */
  function Brief(reply: string): string {
    "This is your manager's brief for your review:\n\n" + Strip(reply) + "\n\n"
  }

  /** `manager_node`: the reply joins the manager's history; the brief goes to the three other histories. */
  function ManagerNode(s: State, reply: string): Update {
    var brief := HumanMessage(Brief(reply));
    map[ManagerMessages := VList([VMsg(AIMessage(reply))]),
        ManagerBrief := VStr(Brief(reply)),
        TitleGenMessages := VList([VMsg(brief)]),
        TldrGenMessages := VList([VMsg(brief)]),
        ReviewerMessages := VList([VMsg(brief)])]
  }

  // ---------------------------------------------------------------------------
  // Generators

  const NoFeedback: string := "No feedback provided"

  /** The message carrying the reviewer's last feedback for one component. */
  function FeedbackMessage(feedback: Value): Message {
    HumanMessage("Following is the review from your reviewer:\n\n " + TextOr(feedback, NoFeedback) + "\n\n")
  }

  const TitleProceed: Message := HumanMessage("Proceed with your title generation using latest feedback (if any).")
  const TldrProceed: Message := HumanMessage("Proceed with your TL;DR generation using latest feedback (if any).")

  /** What the title generator sends to the model: its history with the feedback and the request appended. */
  function TitlePrompt(s: State): seq<Value> {
    Items(Get(s, TitleGenMessages)) + [VMsg(FeedbackMessage(Get(s, TitleFeedback))), VMsg(TitleProceed)]
  }

  /**
   * What the TL;DR generator sends to the model.  The source starts from
   * the TITLE generator's history, not the TL;DR generator's own.
   */
  function TldrPrompt(s: State): seq<Value> {
    Items(Get(s, TitleGenMessages)) + [VMsg(FeedbackMessage(Get(s, TldrFeedback))), VMsg(TldrProceed)]
  }

  /** The update `title_generator_node` returns. */
  function TitleGeneratorNode(s: State, reply: string): Update {
    if IsTrue(Get(s, TitleApproved)) then map[]
    else map[TitleGenMessages := VList([VMsg(TitleProceed), VMsg(AIMessage(reply))]),
             Title := VStr(Strip(reply)),
             TitleFeedback := VStr("")]
  }

  /** The update `tldr_generator_node` returns. */
  function TldrGeneratorNode(s: State, reply: string): Update {
    if IsTrue(Get(s, TldrApproved)) then map[]
    else map[TldrGenMessages := VList([VMsg(TldrProceed), VMsg(AIMessage(reply))]),
             Tldr := VStr(Strip(reply)),
             TldrFeedback := VStr("")]
  }

  /**
   * The state object a node is handed.  The generators extend its
   * `title_gen_messages` list in place (`messages += [...]`) before they
   * return their update.
   */
  class StateObject {
    var fields: State

    constructor (s: State)
      ensures fields == s
    {
      fields := s;
    }
  }

  /** What running the title generator does to the state object it was handed. */
  function TitleInPlace(s: State): State {
    if IsTrue(Get(s, TitleApproved)) then s else s[TitleGenMessages := VList(TitlePrompt(s))]
  }

  /** What running the TL;DR generator does to the state object it was handed. */
  function TldrInPlace(s: State): State {
    if IsTrue(Get(s, TldrApproved)) then s else s[TitleGenMessages := VList(TldrPrompt(s))]
  }

  /** `title_generator_node`, with its in-place extension of the shared history. */
  method RunTitleGenerator(st: StateObject, reply: string) returns (u: Update)
    modifies st
    ensures u == TitleGeneratorNode(old(st.fields), reply)
    ensures st.fields == TitleInPlace(old(st.fields))
  {
    if IsTrue(Get(st.fields, TitleApproved)) {
      return map[];
    }
    var messages := Items(Get(st.fields, TitleGenMessages));
    var reviewerMessage := FeedbackMessage(Get(st.fields, TitleFeedback));
    messages := messages + [VMsg(reviewerMessage), VMsg(TitleProceed)];
    st.fields := st.fields[TitleGenMessages := VList(messages)];
    u := map[TitleGenMessages := VList([messages[|messages| - 1], VMsg(AIMessage(reply))]),
             Title := VStr(Strip(reply)),
             TitleFeedback := VStr("")];
  }

  /** `tldr_generator_node`, which extends the TITLE history in place. */
  method RunTldrGenerator(st: StateObject, reply: string) returns (u: Update)
    modifies st
    ensures u == TldrGeneratorNode(old(st.fields), reply)
    ensures st.fields == TldrInPlace(old(st.fields))
  {
    if IsTrue(Get(st.fields, TldrApproved)) {
      return map[];
    }
    var messages := Items(Get(st.fields, TitleGenMessages));
    var reviewerMessage := FeedbackMessage(Get(st.fields, TldrFeedback));
    messages := messages + [VMsg(reviewerMessage), VMsg(TldrProceed)];
    st.fields := st.fields[TitleGenMessages := VList(messages)];
    u := map[TldrGenMessages := VList([messages[|messages| - 1], VMsg(AIMessage(reply))]),
             Tldr := VStr(Strip(reply)),
             TldrFeedback := VStr("")];
  }

  // ---------------------------------------------------------------------------
  // Reviewer

  function Dashes(): string {
    seq(20, _ => '-')
  }

  /** The text under review, with "Not generated" for a missing draft. */
  function ReviewInput(s: State): string {
    "\n# TL;DR:\n\n" + TextOr(Get(s, Tldr), "Not generated") + "\n" + Dashes() + "\n\n"
    + "# Title:\n\n" + TextOr(Get(s, Title), "Not generated") + "\n" + Dashes() + "\n\n        "
  }

  /** What the reviewer sends to the model: its history and one review request. */
  function ReviewerPrompt(s: State): seq<Value> {
    Items(Get(s, ReviewerMessages))
    + [VMsg(HumanMessage("Please review the following content and provide feedback:\n\n" + ReviewInput(s) + "\n\n"
                         + "If you have any specific feedback for the TL;DR, title, or references, please include it."))]
  }

  /** `response.model_dump_json()`: the verdict as compact JSON, fields in declaration order. */
  function ReviewJson(r: ReviewOutput): string {
    "{\"tldr_approved\":" + JsonBool(r.tldrApproved) + ",\"tldr_feedback\":" + JsonString(r.tldrFeedback)
    + ",\"title_approved\":" + JsonBool(r.titleApproved) + ",\"title_feedback\":" + JsonString(r.titleFeedback) + "}"
  }

  function JsonBool(b: bool): string {
    if b then "true" else "false"
  }

  function JsonString(s: string): string {
    "\"" + JsonEscape(s) + "\""
  }

  function JsonEscape(s: string): string
    decreases |s|
  {
    if |s| == 0 then ""
    else JsonEscapeChar(s[0]) + JsonEscape(s[1..])
  }

  function JsonEscapeChar(c: char): string {
    if c == '"' then "\\\""
    else if c == '\\' then "\\\\"
    else if c == '\n' then "\\n"
    else if c == '\r' then "\\r"
    else if c == '\t' then "\\t"
    else if c == '\U{8}' then "\\b"
    else if c == '\U{C}' then "\\f"
    else if (c as int) < 0x20 then "\\u00" + [HexDigit((c as int) / 16), HexDigit((c as int) % 16)]
    else [c]
  }

  function HexDigit(d: nat): char
    requires d < 16
  {
    "0123456789abcdef"[d]
  }

  /** The update `reviewer_node` returns, given the verdict the model would give. */
  function ReviewerNode(s: State, review: ReviewOutput): Update
    requires Typed(s)
  {
    if Round(s) >= MaxRounds(s) then
      map[NeedsRevision := VBool(false), TitleApproved := VBool(true), TldrApproved := VBool(true)]
    else
      var overallApproved := review.tldrApproved && review.titleApproved;
      map[NeedsRevision := VBool(!overallApproved),
          RevisionRound := VInt(Round(s) + 1),
          TldrFeedback := VStr(review.tldrFeedback),
          TitleFeedback := VStr(review.titleFeedback),
          TldrApproved := VBool(review.tldrApproved),
          TitleApproved := VBool(review.titleApproved),
          ReviewerMessages := VList([VMsg(AIMessage(ReviewJson(review)))])]
  }

  /** Whether the reviewer asks the model at all in this state. */
  predicate ReviewerCallsModel(s: State) {
    Round(s) < MaxRounds(s)
  }

  // ---------------------------------------------------------------------------
  // Router

  /** `route_from_reviewer`: "end", or both generators (an approved one then skips itself). */
  function RouteFromReviewer(s: State): Route {
    if !Truthy(Get(s, NeedsRevision)) then Goto("end") else FanOut([TldrGeneratorName, TitleGeneratorName])
  }
}

/** What the a3 nodes promise, one call at a time. */
module A3NodeFacts {
  import opened Values
  import opened Merge
  import opened Strings
  import opened Graph
  import opened A3Nodes

  /**
   * The manager appends the model's reply to its own history, records the
   * brief, and appends the same brief message to the title, TL;DR and
   * reviewer histories; nothing else changes.
   */
  lemma ManagerBroadcastsBrief(s: State, reply: string, f: Field)
    ensures var t := Apply(Schema(), s, ManagerNode(s, reply));
            var brief := VMsg(HumanMessage(Brief(reply)));
            && Items(Get(t, ManagerMessages)) == Items(Get(s, ManagerMessages)) + [VMsg(AIMessage(reply))]
            && Get(t, ManagerBrief) == VStr(Brief(reply))
            && Items(Get(t, TitleGenMessages)) == Items(Get(s, TitleGenMessages)) + [brief]
            && Items(Get(t, TldrGenMessages)) == Items(Get(s, TldrGenMessages)) + [brief]
            && Items(Get(t, ReviewerMessages)) == Items(Get(s, ReviewerMessages)) + [brief]
            && (f !in {ManagerMessages, ManagerBrief, TitleGenMessages, TldrGenMessages, ReviewerMessages} ==>
                  Get(t, f) == Get(s, f))
  {
  }

  /** An approved generator returns `{}` whatever the model would say, so the state is unchanged. */
  lemma ApprovedGeneratorSkips(s: State, reply1: string, reply2: string)
    ensures IsTrue(Get(s, TitleApproved)) ==>
              TitleGeneratorNode(s, reply1) == map[] && TitleGeneratorNode(s, reply1) == TitleGeneratorNode(s, reply2)
              && Apply(Schema(), s, TitleGeneratorNode(s, reply1)) == s && TitleInPlace(s) == s
    ensures IsTrue(Get(s, TldrApproved)) ==>
              TldrGeneratorNode(s, reply1) == map[] && TldrGeneratorNode(s, reply1) == TldrGeneratorNode(s, reply2)
              && Apply(Schema(), s, TldrGeneratorNode(s, reply1)) == s && TldrInPlace(s) == s
  {
    ApplyEmpty(Schema(), s);
  }

  /**
   * A title generator that runs stores the stripped reply as the new draft,
   * clears its feedback to "" and appends its request and the reply to its
   * own history.
   */
  lemma TitleGeneratorWritesDraft(s: State, reply: string)
    requires !IsTrue(Get(s, TitleApproved))
    ensures var t := Apply(Schema(), s, TitleGeneratorNode(s, reply));
            && Get(t, Title) == VStr(Strip(reply)) && Get(t, TitleFeedback) == VStr("")
            && Items(Get(t, TitleGenMessages)) == Items(Get(s, TitleGenMessages)) + [VMsg(TitleProceed), VMsg(AIMessage(reply))]
  {
    var u := TitleGeneratorNode(s, reply);
    ApplyWrites(Schema(), s, u, Title);
    ApplyWrites(Schema(), s, u, TitleFeedback);
    ApplyWrites(Schema(), s, u, TitleGenMessages);
  }

  /** The title generator changes no field but its own three. */
  lemma TitleGeneratorKeepsOthers(s: State, reply: string, f: Field)
    requires f !in {Title, TitleFeedback, TitleGenMessages}
    ensures Get(Apply(Schema(), s, TitleGeneratorNode(s, reply)), f) == Get(s, f)
  {
    ApplyUntouched(Schema(), s, TitleGeneratorNode(s, reply), f);
  }

  /** The same for the TL;DR generator, on its own three fields. */
  lemma TldrGeneratorWritesDraft(s: State, reply: string)
    requires !IsTrue(Get(s, TldrApproved))
    ensures var t := Apply(Schema(), s, TldrGeneratorNode(s, reply));
            && Get(t, Tldr) == VStr(Strip(reply)) && Get(t, TldrFeedback) == VStr("")
            && Items(Get(t, TldrGenMessages)) == Items(Get(s, TldrGenMessages)) + [VMsg(TldrProceed), VMsg(AIMessage(reply))]
  {
    var u := TldrGeneratorNode(s, reply);
    ApplyWrites(Schema(), s, u, Tldr);
    ApplyWrites(Schema(), s, u, TldrFeedback);
    ApplyWrites(Schema(), s, u, TldrGenMessages);
  }

  /** The TL;DR generator changes no field but its own three. */
  lemma TldrGeneratorKeepsOthers(s: State, reply: string, f: Field)
    requires f !in {Tldr, TldrFeedback, TldrGenMessages}
    ensures Get(Apply(Schema(), s, TldrGeneratorNode(s, reply)), f) == Get(s, f)
  {
    ApplyUntouched(Schema(), s, TldrGeneratorNode(s, reply), f);
  }

  /**
   * The two generators' updates name disjoint fields, so merging them in
   * either order gives the same state.
   */
  lemma GeneratorUpdatesCommute(s: State, titleReply: string, tldrReply: string)
    ensures TitleGeneratorNode(s, titleReply).Keys !! TldrGeneratorNode(s, tldrReply).Keys
    ensures var ut, ud := TitleGeneratorNode(s, titleReply), TldrGeneratorNode(s, tldrReply);
            Apply(Schema(), Apply(Schema(), s, ut), ud) == Apply(Schema(), Apply(Schema(), s, ud), ut)
  {
    ApplyCommutes(Schema(), s, TitleGeneratorNode(s, titleReply), TldrGeneratorNode(s, tldrReply));
  }

  /**
   * The in-place `+=` is shared: once both generators have run on one state
   * object, the TITLE history carries both requests, and the TL;DR model was
   * shown the title's request too when the title generator ran first.  The
   * TL;DR history itself is not extended in place.
   */
  lemma SharedHistoryAliasing(s: State)
    requires !IsTrue(Get(s, TitleApproved)) && !IsTrue(Get(s, TldrApproved))
    ensures var both := TldrInPlace(TitleInPlace(s));
            && Items(Get(both, TitleGenMessages))
               == Items(Get(s, TitleGenMessages))
                  + [VMsg(FeedbackMessage(Get(s, TitleFeedback))), VMsg(TitleProceed),
                     VMsg(FeedbackMessage(Get(s, TldrFeedback))), VMsg(TldrProceed)]
            && Get(both, TldrGenMessages) == Get(s, TldrGenMessages)
    ensures TldrPrompt(TitleInPlace(s)) == TitlePrompt(s) + [VMsg(FeedbackMessage(Get(s, TldrFeedback))), VMsg(TldrProceed)]
  {
  }

  /**
   * At the cap the reviewer forces approval of both parts and ends the loop
   * without consulting the model (the update is the same for any verdict)
   * and without touching `revision_round`.
   */
  lemma ReviewerAtCap(s: State, r1: ReviewOutput, r2: ReviewOutput)
    requires Typed(s) && Round(s) >= MaxRounds(s)
    ensures !ReviewerCallsModel(s)
    ensures ReviewerNode(s, r1) == ReviewerNode(s, r2)
    ensures var t := Apply(Schema(), s, ReviewerNode(s, r1));
            && Get(t, NeedsRevision) == VBool(false)
            && IsTrue(Get(t, TitleApproved)) && IsTrue(Get(t, TldrApproved))
            && Get(t, RevisionRound) == Get(s, RevisionRound)
            && Get(t, ReviewerMessages) == Get(s, ReviewerMessages)
  {
  }

  /**
   * Below the cap the reviewer consults the model once: the round goes up by
   * exactly one and revision is needed unless both parts are approved.  Both
   * verdicts write the same fields.
   */
  lemma ReviewerBelowCapCounts(s: State, r: ReviewOutput, other: ReviewOutput)
    requires Typed(s) && Round(s) < MaxRounds(s)
    ensures ReviewerCallsModel(s)
    ensures var t := Apply(Schema(), s, ReviewerNode(s, r));
            && Get(t, RevisionRound) == VInt(Round(s) + 1)
            && Get(t, NeedsRevision) == VBool(!(r.tldrApproved && r.titleApproved))
    ensures ReviewerNode(s, r).Keys == ReviewerNode(s, other).Keys
  {
    var u := ReviewerNode(s, r);
    ApplyWrites(Schema(), s, u, RevisionRound);
    ApplyWrites(Schema(), s, u, NeedsRevision);
    ReviewerBelowCapKeys(s, r);
    ReviewerBelowCapKeys(s, other);
  }

  /** Below the cap the reviewer writes the same seven fields whatever the verdict. */
  lemma ReviewerBelowCapKeys(s: State, r: ReviewOutput)
    requires Typed(s) && Round(s) < MaxRounds(s)
    ensures ReviewerNode(s, r).Keys
            == {NeedsRevision, RevisionRound, TldrFeedback, TitleFeedback, TldrApproved, TitleApproved, ReviewerMessages}
  {
  }

  /** Below the cap each part's flag and feedback are the verdict's. */
  lemma ReviewerBelowCapVerdict(s: State, r: ReviewOutput)
    requires Typed(s) && Round(s) < MaxRounds(s)
    ensures var t := Apply(Schema(), s, ReviewerNode(s, r));
            && Get(t, TitleApproved) == VBool(r.titleApproved) && Get(t, TldrApproved) == VBool(r.tldrApproved)
            && Get(t, TitleFeedback) == VStr(r.titleFeedback) && Get(t, TldrFeedback) == VStr(r.tldrFeedback)
  {
    var u := ReviewerNode(s, r);
    ApplyWrites(Schema(), s, u, TitleApproved);
    ApplyWrites(Schema(), s, u, TldrApproved);
    ApplyWrites(Schema(), s, u, TitleFeedback);
    ApplyWrites(Schema(), s, u, TldrFeedback);
  }

  /** Below the cap exactly one message, the verdict as JSON, joins the reviewer's history. */
  lemma ReviewerBelowCapHistory(s: State, r: ReviewOutput)
    requires Typed(s) && Round(s) < MaxRounds(s)
    ensures var t := Apply(Schema(), s, ReviewerNode(s, r));
            Items(Get(t, ReviewerMessages)) == Items(Get(s, ReviewerMessages)) + [VMsg(AIMessage(ReviewJson(r)))]
  {
    ApplyWrites(Schema(), s, ReviewerNode(s, r), ReviewerMessages);
  }

  /** The router ends the run exactly when no revision is needed, and otherwise sends work to both generators. */
  lemma RouteEndsIffNoRevision(s: State)
    ensures RouteFromReviewer(s) == Goto("end") <==> !Truthy(Get(s, NeedsRevision))
    ensures RouteFromReviewer(s) != Goto("end") ==> RouteFromReviewer(s) == FanOut([TldrGeneratorName, TitleGeneratorName])
  {
  }
}
