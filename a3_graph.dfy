/**
 * a3/graphs/a3_graph.py: the title/TL;DR pipeline's graph.  START leads to
 * the manager, the manager to both generators, the reviewer waits for both
 * generators, and the reviewer's router either ends the run or sends work
 * back to both generators.  `Revise` runs that loop on the node functions of
 * A3Nodes, with one set of model answers per round, and proves that it ends.
 */
module A3Graph {
  import opened Wrappers
  import opened Values
  import opened Merge
  import opened Strings
  import opened Graph
  import opened A3Nodes
  import opened A3NodeFacts

  /** The topology `build_a3_graph` registers. */
  function A3Topology(): Topology {
    Topology([ManagerName, TldrGeneratorName, TitleGeneratorName, ReviewerName],
             [Edge(Start, ManagerName), Edge(ManagerName, TldrGeneratorName), Edge(ManagerName, TitleGeneratorName)],
             [Join([TldrGeneratorName, TitleGeneratorName], ReviewerName)],
             [Branch(ReviewerName, Some(map[TldrGeneratorName := TldrGeneratorName,
                                            TitleGeneratorName := TitleGeneratorName,
                                            "end" := End]))])
  }

  /** `build_a3_graph`: the builder calls, in the source's order. */
  method BuildA3Graph() returns (t: Topology)
    ensures t == A3Topology()
  {
    var graph := new StateGraph();
    graph.AddNode(ManagerName);
    graph.AddNode(TldrGeneratorName);
    graph.AddNode(TitleGeneratorName);
    graph.AddNode(ReviewerName);
    graph.AddEdge(Start, ManagerName);
    graph.AddEdge(ManagerName, TldrGeneratorName);
    graph.AddEdge(ManagerName, TitleGeneratorName);
    graph.AddJoin([TldrGeneratorName, TitleGeneratorName], ReviewerName);
    graph.AddConditionalEdges(ReviewerName, Some(map[TldrGeneratorName := TldrGeneratorName,
                                                     TitleGeneratorName := TitleGeneratorName,
                                                     "end" := End]));
    t := graph.Snapshot();
  }

  /** Every edge, the join and the routing map connect the four nodes, START and END only. */
  lemma A3EndpointsRegistered()
    ensures EndpointsRegistered(A3Topology())
  {
  }

  /**
   * The run enters at the manager, the manager leads to both generators,
   * and nothing but the join of both generators leads to the reviewer.
   */
  lemma A3Flow()
    ensures Successors(A3Topology(), Start) == {ManagerName}
    ensures Successors(A3Topology(), ManagerName) == {TldrGeneratorName, TitleGeneratorName}
    ensures forall e :: e in A3Topology().edges ==> e.target != ReviewerName
    ensures forall b, k :: b in A3Topology().branches && b.mapping.Some? && k in b.mapping.value ==>
              b.mapping.value[k] != ReviewerName
    ensures A3Topology().joins == [Join([TldrGeneratorName, TitleGeneratorName], ReviewerName)]
  {
    var t := A3Topology();
    assert Successors(t, Start) == {ManagerName} by {
      assert t.edges[0] in t.edges;
    }
    assert Successors(t, ManagerName) == {TldrGeneratorName, TitleGeneratorName} by {
      assert t.edges[1] in t.edges && t.edges[2] in t.edges;
    }
  }

  /** Whatever the state, each name the reviewer's router returns is mapped, to a generator or to END. */
  lemma ReviewerRouteCovered(s: State)
    ensures RouteCovered(A3Topology(), ReviewerName, RouteFromReviewer(s))
    ensures RouteFromReviewer(s) == Goto("end") ==> Resolve(A3Topology(), ReviewerName, "end") == Some(End)
    ensures RouteFromReviewer(s) != Goto("end") ==>
              forall n :: n in RouteNames(RouteFromReviewer(s)) ==> Resolve(A3Topology(), ReviewerName, n) == Some(n)
  {
  }

  // ---------------------------------------------------------------------------
  // The revision loop

  /** The model's answers in one round: the two drafts and the reviewer's verdict. */
  datatype RoundAnswers = RoundAnswers(tldrReply: string, titleReply: string, review: ReviewOutput)

  /**
   * Both generators run on the same state; the updates they return are
   * merged TL;DR first, then title.  Their in-place extension of the title
   * history (`TitleInPlace`, `TldrInPlace`) is not part of the merged state.
   */
  function GenerateStep(s: State, a: RoundAnswers): State {
    Apply(Schema(), Apply(Schema(), s, TldrGeneratorNode(s, a.tldrReply)), TitleGeneratorNode(s, a.titleReply))
  }

  /** The reviewer runs and its update is merged. */
  function ReviewStep(s: State, a: RoundAnswers): State
    requires Typed(s)
  {
    Apply(Schema(), s, ReviewerNode(s, a.review))
  }

  /** The reviews still allowed before the cap forces the end. */
  function Measure(s: State): nat {
    if Round(s) < MaxRounds(s) then MaxRounds(s) - Round(s) else 0
  }

  /** The fields the generators never write. */
  lemma GenerateStepKeeps(s: State, a: RoundAnswers, f: Field)
    requires f !in {Title, TitleFeedback, TitleGenMessages, Tldr, TldrFeedback, TldrGenMessages}
    ensures Get(GenerateStep(s, a), f) == Get(s, f)
  {
    TldrGeneratorKeepsOthers(s, a.tldrReply, f);
    ApplyUntouched(Schema(), Apply(Schema(), s, TldrGeneratorNode(s, a.tldrReply)), TitleGeneratorNode(s, a.titleReply), f);
  }

  /** The fields a below-cap or at-cap review never writes. */
  lemma ReviewStepKeeps(s: State, a: RoundAnswers, f: Field)
    requires Typed(s)
    requires f in {ManagerBrief, ManagerMessages, MaxRevisions, Title, Tldr}
    ensures Get(ReviewStep(s, a), f) == Get(s, f)
  {
    ApplyUntouched(Schema(), s, ReviewerNode(s, a.review), f);
  }

  /**
   * Only the rejected part is redone: after a review, the next round leaves
   * an approved title's draft and feedback as they are and regenerates a
   * rejected one from this round's reply.
   */
  lemma SelectiveTitleRegeneration(s: State, a: RoundAnswers)
    ensures IsTrue(Get(s, TitleApproved)) ==>
              Get(GenerateStep(s, a), Title) == Get(s, Title) && Get(GenerateStep(s, a), TitleFeedback) == Get(s, TitleFeedback)
    ensures !IsTrue(Get(s, TitleApproved)) ==> Get(GenerateStep(s, a), Title) == VStr(Strip(a.titleReply))
  {
    var mid := Apply(Schema(), s, TldrGeneratorNode(s, a.tldrReply));
    TldrGeneratorKeepsOthers(s, a.tldrReply, Title);
    TldrGeneratorKeepsOthers(s, a.tldrReply, TitleFeedback);
    if IsTrue(Get(s, TitleApproved)) {
      ApplyEmpty(Schema(), mid);
    } else {
      ApplyWrites(Schema(), mid, TitleGeneratorNode(s, a.titleReply), Title);
    }
  }

  /** The same for the TL;DR. */
  lemma SelectiveTldrRegeneration(s: State, a: RoundAnswers)
    ensures IsTrue(Get(s, TldrApproved)) ==>
              Get(GenerateStep(s, a), Tldr) == Get(s, Tldr) && Get(GenerateStep(s, a), TldrFeedback) == Get(s, TldrFeedback)
    ensures !IsTrue(Get(s, TldrApproved)) ==> Get(GenerateStep(s, a), Tldr) == VStr(Strip(a.tldrReply))
  {
    var mid := Apply(Schema(), s, TldrGeneratorNode(s, a.tldrReply));
    ApplyUntouched(Schema(), mid, TitleGeneratorNode(s, a.titleReply), Tldr);
    ApplyUntouched(Schema(), mid, TitleGeneratorNode(s, a.titleReply), TldrFeedback);
    if IsTrue(Get(s, TldrApproved)) {
      ApplyEmpty(Schema(), s);
    } else {
      TldrGeneratorWritesDraft(s, a.tldrReply);
    }
  }

  /** What a run of the loop yields: the final state, the reviewer runs, and how many of them asked the model. */
  datatype Outcome = Outcome(final: State, reviews: nat, modelReviews: nat)

  /**
   * The loop from the reviewer on, starting in state `s` (the generators of
   * round `k` have just run): the reviewer uses `answers(k).review`; if the
   * router sends work back, both generators run with round `k + 1`'s replies
   * and the reviewer runs again.
   *
   * Whatever the model answers, the loop ends, with both parts approved and
   * no revision pending; every review that asks the model raises the round
   * by one, at most `Measure(s)` reviews ask the model, and at most one more
   * review (the one at the cap) does not.
   */
  function Revise(s: State, answers: nat -> RoundAnswers, k: nat): (o: Outcome)
    requires Typed(s)
    decreases Measure(s)
    ensures Typed(o.final) && MaxRounds(o.final) == MaxRounds(s)
    ensures RouteFromReviewer(o.final) == Goto("end") && !Truthy(Get(o.final, NeedsRevision))
    ensures IsTrue(Get(o.final, TitleApproved)) && IsTrue(Get(o.final, TldrApproved))
    ensures Round(o.final) == Round(s) + o.modelReviews
    ensures o.modelReviews <= Measure(s)
    ensures o.modelReviews <= o.reviews <= o.modelReviews + 1
    ensures Get(o.final, ManagerBrief) == Get(s, ManagerBrief)
  {
    var t := ReviewStep(s, answers(k));
    ReviewStepKeeps(s, answers(k), MaxRevisions);
    ReviewStepKeeps(s, answers(k), ManagerBrief);
    if Round(s) >= MaxRounds(s) then
      ReviewerAtCap(s, answers(k).review, answers(k).review);
      Outcome(t, 1, 0)
    else
      ReviewerBelowCapCounts(s, answers(k).review, answers(k).review);
      ReviewerBelowCapVerdict(s, answers(k).review);
      if !Truthy(Get(t, NeedsRevision)) then
        Outcome(t, 1, 1)
      else
        var next := GenerateStep(t, answers(k + 1));
        GenerateStepKeeps(t, answers(k + 1), RevisionRound);
        GenerateStepKeeps(t, answers(k + 1), MaxRevisions);
        GenerateStepKeeps(t, answers(k + 1), ManagerBrief);
        var o := Revise(next, answers, k + 1);
        Outcome(o.final, o.reviews + 1, o.modelReviews + 1)
  }

  /**
   * A whole run: the manager, both generators with round 0's replies, then
   * the revision loop.  The manager's brief survives to the end.
   */
  function RunA3(s: State, managerReply: string, answers: nat -> RoundAnswers): (o: Outcome)
    requires Typed(s)
    ensures Typed(o.final) && MaxRounds(o.final) == MaxRounds(s)
    ensures IsTrue(Get(o.final, TitleApproved)) && IsTrue(Get(o.final, TldrApproved))
    ensures Get(o.final, ManagerBrief) == VStr(Brief(managerReply))
    ensures Round(o.final) == Round(s) + o.modelReviews && o.modelReviews <= o.reviews <= o.modelReviews + 1
    ensures o.modelReviews <= Measure(s)
  {
    var m := Apply(Schema(), s, ManagerNode(s, managerReply));
    ManagerBroadcastsBrief(s, managerReply, RevisionRound);
    ManagerBroadcastsBrief(s, managerReply, MaxRevisions);
    var g := GenerateStep(m, answers(0));
    GenerateStepKeeps(m, answers(0), RevisionRound);
    GenerateStepKeeps(m, answers(0), MaxRevisions);
    GenerateStepKeeps(m, answers(0), ManagerBrief);
    Revise(g, answers, 0)
  }

  /**
   * From the initial `revision_round` of 0 the round never exceeds
   * `max_revisions`, and at most `max_revisions` reviews ask the model.
   */
  lemma RoundNeverExceedsCap(s: State, managerReply: string, answers: nat -> RoundAnswers)
    requires Typed(s) && Round(s) == 0 && MaxRounds(s) >= 0
    ensures RunA3(s, managerReply, answers).modelReviews <= MaxRounds(s)
    ensures Round(RunA3(s, managerReply, answers).final) <= MaxRounds(s)
    ensures RunA3(s, managerReply, answers).reviews <= MaxRounds(s) + 1
  {
  }

  /**
   * With `max_revisions` 2: the reviewer approves the TL;DR but rejects the
   * title in round 0, then approves both.  Two reviews run, both ask the
   * model, the final title is round 1's reply and the TL;DR is not redone.
   */
  lemma TitleRejectedOnce(s: State, answers: nat -> RoundAnswers)
    requires Typed(s) && Round(s) == 0 && MaxRounds(s) == 2
    requires answers(0).review.tldrApproved && !answers(0).review.titleApproved
    requires answers(1).review.tldrApproved && answers(1).review.titleApproved
    ensures var o := Revise(s, answers, 0);
            && o.reviews == 2 && o.modelReviews == 2 && Round(o.final) == 2
            && Get(o.final, Title) == VStr(Strip(answers(1).titleReply))
            && Get(o.final, Tldr) == Get(s, Tldr)
  {
    var t := ReviewStep(s, answers(0));
    ReviewerBelowCapCounts(s, answers(0).review, answers(0).review);
    ReviewerBelowCapVerdict(s, answers(0).review);
    ReviewStepKeeps(s, answers(0), Tldr);
    ReviewStepKeeps(s, answers(0), MaxRevisions);
    var next := GenerateStep(t, answers(1));
    GenerateStepKeeps(t, answers(1), RevisionRound);
    GenerateStepKeeps(t, answers(1), MaxRevisions);
    SelectiveTitleRegeneration(t, answers(1));
    SelectiveTldrRegeneration(t, answers(1));
    var t2 := ReviewStep(next, answers(1));
    ReviewerBelowCapCounts(next, answers(1).review, answers(1).review);
    ReviewStepKeeps(next, answers(1), Title);
    ReviewStepKeeps(next, answers(1), Tldr);
    assert Revise(next, answers, 1) == Outcome(t2, 1, 1);
  }

  /**
   * With `max_revisions` 1 and a reviewer that always rejects the title:
   * one review asks the model, the second hits the cap, forces approval and
   * ends the run.
   */
  lemma AlwaysRejectedStopsAtCap(s: State, answers: nat -> RoundAnswers)
    requires Typed(s) && Round(s) == 0 && MaxRounds(s) == 1
    requires forall k :: !answers(k).review.titleApproved
    ensures var o := Revise(s, answers, 0);
            && o.reviews == 2 && o.modelReviews == 1 && Round(o.final) == 1
            && IsTrue(Get(o.final, TitleApproved))
  {
    var t := ReviewStep(s, answers(0));
    ReviewerBelowCapCounts(s, answers(0).review, answers(0).review);
    ReviewStepKeeps(s, answers(0), MaxRevisions);
    var next := GenerateStep(t, answers(1));
    GenerateStepKeeps(t, answers(1), RevisionRound);
    GenerateStepKeeps(t, answers(1), MaxRevisions);
    assert Revise(next, answers, 1) == Outcome(ReviewStep(next, answers(1)), 1, 0);
  }
}
