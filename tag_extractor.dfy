/**
 * tag-extractor/main.py: three tag extractors run side by side on the
 * document, an aggregation node waits for all three and concatenates their
 * tags, and a final node reports the result.  The extractors' tags are the
 * fixed lists the source returns; the final node only prints, so it changes
 * nothing.  `State` declares no reducers, so every update replaces the
 * fields it names.
 */
module TagExtractor {
  import opened Wrappers
  import opened Values
  import opened Merge
  import opened Graph

  datatype Field = Document | GazetteerResult | NerResult | LlmResult | FinalResult

  type State = map<Field, Value>
  type Update = map<Field, Value>

  /** `State` has no `Annotated` fields. */
  function Schema(): map<Field, Reducer> {
    map[]
  }

  const GazetteerName: string := "gazeteer_extraction"
  const NerName: string := "ner_extraction"
  const LlmName: string := "llm_extraction"
  const AggregationName: string := "aggregation"
  const FinalNodeName: string := "final_node"

  /** `State(document=...)`: the document, and every result list empty. */
  function InitialState(document: Option<string>): (s: State)
    ensures Get(s, Document) == (if document.Some? then VStr(document.value) else VNone)
    ensures Get(s, GazetteerResult) == Get(s, NerResult) == Get(s, LlmResult) == Get(s, FinalResult) == VList([])
  {
    map[Document := if document.Some? then VStr(document.value) else VNone,
        GazetteerResult := VList([]), NerResult := VList([]), LlmResult := VList([]), FinalResult := VList([])]
  }

  // ---------------------------------------------------------------------------
  // The extractors

  datatype Extractor = Gazetteer | Ner | Llm

  /** The field each extractor writes. */
  function ResultField(e: Extractor): Field {
    match e
    case Gazetteer => GazetteerResult
    case Ner => NerResult
    case Llm => LlmResult
  }

  /** The fixed tags of each extractor. */
  function Tags(e: Extractor): seq<Value> {
    match e
    case Gazetteer => [VStr("a")]
    case Ner => [VStr("b")]
    case Llm => [VStr("c")]
  }

  /** `gazeteer_extraction_node`, `ner_extraction_node` and `llm_extraction_node`. */
  function Extract(e: Extractor, s: State): Update {
    map[ResultField(e) := VList(Tags(e))]
  }

  /** Each extractor names its own result field and no other, and writes its tags there. */
  lemma ExtractorWritesOwnField(e: Extractor, s: State, f: Field)
    ensures Extract(e, s).Keys == {ResultField(e)}
    ensures Get(Apply(Schema(), s, Extract(e, s)), ResultField(e)) == VList(Tags(e))
    ensures f != ResultField(e) ==> Get(Apply(Schema(), s, Extract(e, s)), f) == Get(s, f)
  {
    ApplyWrites(Schema(), s, Extract(e, s), ResultField(e));
    if f != ResultField(e) {
      ApplyUntouched(Schema(), s, Extract(e, s), f);
    }
  }

  /** Two different extractors write different fields, so their updates merge to the same state in either order. */
  lemma ExtractorsCommute(e1: Extractor, e2: Extractor, s: State, t: State)
    requires e1 != e2
    ensures Apply(Schema(), Apply(Schema(), t, Extract(e1, s)), Extract(e2, s))
            == Apply(Schema(), Apply(Schema(), t, Extract(e2, s)), Extract(e1, s))
  {
    assert ResultField(e1) != ResultField(e2);
    ApplyCommutes(Schema(), t, Extract(e1, s), Extract(e2, s));
  }

  /** The three extractors on one snapshot, merged in the order they are listed. */
  function FanOutStep(s: State): State {
    Apply(Schema(), Apply(Schema(), Apply(Schema(), s, Extract(Gazetteer, s)), Extract(Ner, s)), Extract(Llm, s))
  }

  /** After the fan-out the three result fields hold their tags, and the document and final result are as before. */
  lemma FanOutStepWrites(s: State)
    ensures Get(FanOutStep(s), GazetteerResult) == VList([VStr("a")])
    ensures Get(FanOutStep(s), NerResult) == VList([VStr("b")])
    ensures Get(FanOutStep(s), LlmResult) == VList([VStr("c")])
    ensures Get(FanOutStep(s), Document) == Get(s, Document)
    ensures Get(FanOutStep(s), FinalResult) == Get(s, FinalResult)
  {
    var s1 := Apply(Schema(), s, Extract(Gazetteer, s));
    var s2 := Apply(Schema(), s1, Extract(Ner, s));
    ExtractorWritesOwnField(Gazetteer, s, NerResult);
    ExtractorWritesOwnField(Gazetteer, s, Document);
    ExtractorWritesOwnField(Gazetteer, s, FinalResult);
    ExtractorWritesOwnField(Ner, s, GazetteerResult);
    ApplyWrites(Schema(), s1, Extract(Ner, s), NerResult);
    ApplyUntouched(Schema(), s1, Extract(Ner, s), GazetteerResult);
    ApplyUntouched(Schema(), s1, Extract(Ner, s), Document);
    ApplyUntouched(Schema(), s1, Extract(Ner, s), FinalResult);
    ApplyWrites(Schema(), s2, Extract(Llm, s), LlmResult);
    ApplyUntouched(Schema(), s2, Extract(Llm, s), GazetteerResult);
    ApplyUntouched(Schema(), s2, Extract(Llm, s), NerResult);
    ApplyUntouched(Schema(), s2, Extract(Llm, s), Document);
    ApplyUntouched(Schema(), s2, Extract(Llm, s), FinalResult);
  }

  // ---------------------------------------------------------------------------
  // Aggregation and routing

  /**
   * `aggregation_node`: when all three result lists are non-empty, the final
   * result is their concatenation, gazetteer tags first, then NER, then LLM;
   * otherwise the node returns None.
   */
  function Aggregation(s: State): Option<Update> {
    var g, n, l := Get(s, GazetteerResult), Get(s, NerResult), Get(s, LlmResult);
    if Truthy(g) && Truthy(n) && Truthy(l) then Some(map[FinalResult := VList(Items(g) + Items(n) + Items(l))])
    else None
  }

  /**
   * The aggregation writes the three lists in order exactly when none of them
   * is empty; otherwise the final result keeps its value.  No other field
   * changes.
   */
  lemma AggregationEffect(s: State, f: Field)
    requires forall e: Extractor :: Get(s, ResultField(e)).VList?
    ensures var r := ApplyResult(Schema(), s, Aggregation(s));
            var g, n, l := Items(Get(s, GazetteerResult)), Items(Get(s, NerResult)), Items(Get(s, LlmResult));
            && (g != [] && n != [] && l != [] ==> Get(r, FinalResult) == VList(g + n + l))
            && (g == [] || n == [] || l == [] ==> Get(r, FinalResult) == Get(s, FinalResult))
            && (f != FinalResult ==> Get(r, f) == Get(s, f))
  {
    assert Get(s, ResultField(Gazetteer)).VList? && Get(s, ResultField(Ner)).VList? && Get(s, ResultField(Llm)).VList?;
    match Aggregation(s)
    case None =>
    case Some(u) =>
      ApplyWrites(Schema(), s, u, FinalResult);
      if f != FinalResult {
        ApplyUntouched(Schema(), s, u, f);
      }
  }

  /** `router`: all three extractors for a non-empty document, the final node otherwise. */
  function Router(s: State): Route {
    if Truthy(Get(s, Document)) then FanOut([GazetteerName, NerName, LlmName]) else Goto(FinalNodeName)
  }

  /** The mapping of `set_conditional_entry_point`: every router value names itself. */
  function EntryMapping(): map<string, string> {
    map[GazetteerName := GazetteerName, NerName := NerName, LlmName := LlmName, FinalNodeName := FinalNodeName]
  }

  /** The topology `create_agent` registers. */
  function TagTopology(): Topology {
    Topology([GazetteerName, NerName, LlmName, AggregationName, FinalNodeName],
             [Edge(AggregationName, FinalNodeName), Edge(FinalNodeName, End)],
             [Join([GazetteerName, NerName, LlmName], AggregationName)],
             [Branch(Start, Some(EntryMapping()))])
  }

  /** `create_agent`: the builder calls, in the source's order. */
  method CreateAgent() returns (t: Topology)
    ensures t == TagTopology()
  {
    var graph := new StateGraph();
    graph.AddNode(GazetteerName);
    graph.AddNode(NerName);
    graph.AddNode(LlmName);
    graph.AddNode(AggregationName);
    graph.AddNode(FinalNodeName);
    graph.SetConditionalEntryPoint(EntryMapping());
    graph.AddJoin([GazetteerName, NerName, LlmName], AggregationName);
    graph.AddEdge(AggregationName, FinalNodeName);
    graph.AddEdge(FinalNodeName, End);
    t := graph.Snapshot();
  }

  /** Every edge, the join and the entry mapping connect the five nodes, START and END only. */
  lemma TagEndpointsRegistered()
    ensures EndpointsRegistered(TagTopology())
  {
    var t := TagTopology();
    forall b, k | b in t.branches && b.mapping.Some? && k in b.mapping.value
      ensures IsTarget(t, b.mapping.value[k])
    {
      assert b == Branch(Start, Some(EntryMapping()));
    }
  }

  /**
   * Whatever the state, each name the router returns is mapped to that
   * node; the aggregation waits for all three extractors and is reached by
   * nothing else, then leads to the final node and the final node to END.
   */
  lemma TagFlow(s: State)
    ensures RouteCovered(TagTopology(), Start, Router(s))
    ensures forall n :: n in RouteNames(Router(s)) ==> Resolve(TagTopology(), Start, n) == Some(n)
    ensures TagTopology().joins == [Join([GazetteerName, NerName, LlmName], AggregationName)]
    ensures forall e :: e in TagTopology().edges ==> e.target != AggregationName
    ensures AggregationName !in EntryMapping().Values
    ensures Successors(TagTopology(), AggregationName) == {FinalNodeName}
    ensures Successors(TagTopology(), FinalNodeName) == {End}
  {
    var t := TagTopology();
    assert Successors(t, AggregationName) == {FinalNodeName} by {
      assert t.edges[0] in t.edges;
    }
    assert Successors(t, FinalNodeName) == {End} by {
      assert t.edges[1] in t.edges;
    }
    assert AggregationName !in EntryMapping().Values by {
      var m := EntryMapping();
      assert m.Values == {GazetteerName, NerName, LlmName, FinalNodeName} by {
        assert m[GazetteerName] == GazetteerName && m[NerName] == NerName;
        assert m[LlmName] == LlmName && m[FinalNodeName] == FinalNodeName;
      }
    }
  }

  /**
   * `agent.invoke(State(document=...))`: a non-empty document runs the three
   * extractors, then the aggregation; the final node changes nothing.  An
   * empty or missing document goes straight to the final node.
   */
  function Invoke(document: Option<string>): State {
    var s := InitialState(document);
    match Router(s)
    case FanOut(_) =>
      var t := FanOutStep(s);
      ApplyResult(Schema(), t, Aggregation(t))
    case Goto(_) => s
  }

  /** The final result is ["a", "b", "c"] for a non-empty document and [] otherwise. */
  lemma InvokeResult(document: Option<string>)
    ensures document.Some? && document.value != "" ==>
              Get(Invoke(document), FinalResult) == VList([VStr("a"), VStr("b"), VStr("c")])
    ensures document.None? || document.value == "" ==> Get(Invoke(document), FinalResult) == VList([])
  {
    var s := InitialState(document);
    if Truthy(Get(s, Document)) {
      var t := FanOutStep(s);
      FanOutStepWrites(s);
      assert forall e: Extractor :: Get(t, ResultField(e)).VList? by {
        forall e: Extractor ensures Get(t, ResultField(e)).VList? {
          match e
          case Gazetteer =>
          case Ner =>
          case Llm =>
        }
      }
      AggregationEffect(t, FinalResult);
      assert [VStr("a")] + [VStr("b")] + [VStr("c")] == [VStr("a"), VStr("b"), VStr("c")];
    }
  }

  /** `main`: the document "Hey" ends with the tags ["a", "b", "c"]. */
  lemma HeyYieldsAllTags()
    ensures Get(Invoke(Some("Hey")), FinalResult) == VList([VStr("a"), VStr("b"), VStr("c")])
  {
    InvokeResult(Some("Hey"));
  }
}
