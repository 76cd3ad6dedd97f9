/**
 * playground/run-lang-graph-playground.py: the first joke bot.  A menu sets
 * `user_choice`, the router sends the run to the joke fetcher, the category
 * update or the exit, and the first two return to the menu.  `jokes` is
 * `Annotated[..., operator.add]`, so fetched jokes are concatenated onto the
 * list.  The menu's prompts, the category prompt and pyjokes are inputs.
 */
module Playground {
  import opened Wrappers
  import opened Values
  import opened Merge
  import opened Graph
  import JokesState

  datatype Field = Jokes | UserChoice | Category | Language | Quit

  type State = map<Field, Value>
  type Update = map<Field, Value>

  /** `jokes: Annotated[List[Joke], add]`; the other fields have no reducer. */
  function Schema(): map<Field, Reducer> {
    map[Jokes := Append]
  }

  const ShowMenuName: string := "show_menu"
  const FetchJokeName: string := "fetch_joke"
  const UpdateCategoryName: string := "update_category"
  const ExitBotName: string := "exit_bot"

  /** `JokeState()`: no jokes, choice "n", category "neutral", English, not quitting. */
  function InitialState(): (s: State)
    ensures Get(s, Jokes) == VList([]) && Get(s, UserChoice) == VStr("n")
    ensures Get(s, Category) == VStr("neutral") && Get(s, Language) == VStr("en") && Get(s, Quit) == VBool(false)
  {
    map[Jokes := VList([]), UserChoice := VStr("n"), Category := VStr("neutral"), Language := VStr("en"),
        Quit := VBool(false)]
  }

  /** `show_menu` after the prompt: the letter of the chosen entry. */
  function ShowMenu(choice: string): Update {
    map[UserChoice := VStr(choice)]
  }

  /** `fetch_joke`: one joke, pyjokes' `text`, tagged with the state's category. */
  function FetchJoke(s: State, text: string): Update {
    map[Jokes := VList([VJoke(Joke(text, StrOf(Get(s, Category))))])]
  }

  /** `update_category` after the prompt. */
  function UpdateCategory(category: string): Update {
    map[Category := VStr(category)]
  }

  /** `exit_bot`. */
  function ExitBot(): Update {
    map[Quit := VBool(true)]
  }

  /** `route_choice`: "n" fetches, "c" changes the category, "q" and anything else exit. */
  function RouteChoice(s: State): string {
    var choice := Get(s, UserChoice);
    if choice == VStr("n") then FetchJokeName
    else if choice == VStr("c") then UpdateCategoryName
    else ExitBotName
  }

  /** The router picks the fetcher exactly for "n", the category update exactly for "c", and the exit otherwise. */
  lemma RouteChoiceCases(s: State)
    ensures RouteChoice(s) == FetchJokeName <==> Get(s, UserChoice) == VStr("n")
    ensures RouteChoice(s) == UpdateCategoryName <==> Get(s, UserChoice) == VStr("c")
    ensures RouteChoice(s) == ExitBotName <==> Get(s, UserChoice) != VStr("n") && Get(s, UserChoice) != VStr("c")
  {
  }

  /** The topology `build_joke_graph` registers. */
  function PlaygroundTopology(): Topology {
    Topology([ShowMenuName, FetchJokeName, UpdateCategoryName, ExitBotName],
             [Edge(Start, ShowMenuName), Edge(FetchJokeName, ShowMenuName), Edge(UpdateCategoryName, ShowMenuName),
              Edge(ExitBotName, End)],
             [],
             [Branch(ShowMenuName, Some(map[FetchJokeName := FetchJokeName, UpdateCategoryName := UpdateCategoryName,
                                           ExitBotName := ExitBotName]))])
  }

  /** `build_joke_graph`: the builder calls, in the source's order. */
  method BuildJokeGraph() returns (t: Topology)
    ensures t == PlaygroundTopology()
  {
    var workflow := new StateGraph();
    workflow.AddNode(ShowMenuName);
    workflow.AddNode(FetchJokeName);
    workflow.AddNode(UpdateCategoryName);
    workflow.AddNode(ExitBotName);
    workflow.SetEntryPoint(ShowMenuName);
    workflow.AddConditionalEdges(ShowMenuName, Some(map[FetchJokeName := FetchJokeName,
                                                         UpdateCategoryName := UpdateCategoryName,
                                                         ExitBotName := ExitBotName]));
    workflow.AddEdge(FetchJokeName, ShowMenuName);
    workflow.AddEdge(UpdateCategoryName, ShowMenuName);
    workflow.AddEdge(ExitBotName, End);
    t := workflow.Snapshot();
  }

  /**
   * Every edge and the menu's mapping connect the four nodes, START and END
   * only; whatever the choice, the router's answer is mapped to that node;
   * the fetcher and the category update return to the menu and the exit
   * leads to END.
   */
  lemma PlaygroundFlow(s: State)
    ensures EndpointsRegistered(PlaygroundTopology())
    ensures Resolve(PlaygroundTopology(), ShowMenuName, RouteChoice(s)) == Some(RouteChoice(s))
    ensures Successors(PlaygroundTopology(), FetchJokeName) == {ShowMenuName}
    ensures Successors(PlaygroundTopology(), UpdateCategoryName) == {ShowMenuName}
    ensures Successors(PlaygroundTopology(), ExitBotName) == {End}
  {
    PlaygroundEndpoints();
    PlaygroundReturns();
  }

  lemma PlaygroundReturns()
    ensures Successors(PlaygroundTopology(), FetchJokeName) == {ShowMenuName}
    ensures Successors(PlaygroundTopology(), UpdateCategoryName) == {ShowMenuName}
    ensures Successors(PlaygroundTopology(), ExitBotName) == {End}
  {
    var t := PlaygroundTopology();
    assert t.edges[1] in t.edges && t.edges[2] in t.edges && t.edges[3] in t.edges;
  }

  lemma PlaygroundEndpoints()
    ensures EndpointsRegistered(PlaygroundTopology())
  {
    var t := PlaygroundTopology();
    forall e | e in t.edges
      ensures IsSource(t, e.source) && IsTarget(t, e.target)
    {
    }
  }

  /**
   * `fetch_joke` adds exactly one joke, with the current category, after the
   * jokes already fetched; every other field keeps its value.
   */
  lemma FetchJokeAppendsOne(s: State, text: string, f: Field)
    ensures var after := Items(Get(Apply(Schema(), s, FetchJoke(s, text)), Jokes));
            after == Items(Get(s, Jokes)) + [VJoke(Joke(text, StrOf(Get(s, Category))))]
    ensures f != Jokes ==> Get(Apply(Schema(), s, FetchJoke(s, text)), f) == Get(s, f)
  {
    ApplyWrites(Schema(), s, FetchJoke(s, text), Jokes);
    if f != Jokes {
      ApplyUntouched(Schema(), s, FetchJoke(s, text), f);
    }
  }

  /**
   * Under `operator.add` an empty jokes update leaves the list as it is,
   * where the jokes bot's joke_reducer clears it.
   */
  lemma AddKeepsWhereJokeReducerClears(s: State, js: JokesState.State)
    requires Get(s, Jokes).VList? && Items(Get(js, JokesState.Jokes)) != []
    ensures Get(Apply(Schema(), s, map[Jokes := VList([])]), Jokes) == Get(s, Jokes)
    ensures Get(Apply(JokesState.Schema(), js, map[JokesState.Jokes := VList([])]), JokesState.Jokes)
            != Get(js, JokesState.Jokes)
  {
    ApplyWrites(Schema(), s, map[Jokes := VList([])], Jokes);
    assert Items(Get(s, Jokes)) + [] == Items(Get(s, Jokes));
    JokesState.JokeListsUseJokeReducer(js, map[JokesState.Jokes := VList([])], JokesState.Jokes);
  }

  // ---------------------------------------------------------------------------
  // A session

  /** One round of the menu: the letter picked, and what pyjokes or the category prompt answer. */
  datatype Pick = Pick(choice: string, jokeText: string, category: string)

  /** The picks that fetch a joke before the first pick that exits. */
  function Fetches(picks: seq<Pick>): nat
    decreases |picks|
  {
    if picks == [] then 0
    else if picks[0].choice == "n" then 1 + Fetches(picks[1..])
    else if picks[0].choice == "c" then Fetches(picks[1..])
    else 0
  }

  /** Some pick exits, after only "n" and "c" picks. */
  predicate Exits(picks: seq<Pick>)
    decreases |picks|
  {
    picks != [] && (picks[0].choice == "n" || picks[0].choice == "c" ==> Exits(picks[1..]))
  }

  /**
   * The graph run from the menu on, one pick per visit to the menu, until a
   * pick exits or the picks run out.  The jokes fetched before are kept and
   * one joke is added per "n" pick; the bot quits exactly when a pick exits;
   * the language never changes.
   */
  function Play(s: State, picks: seq<Pick>): (r: State)
    decreases |picks|
    ensures Items(Get(s, Jokes)) <= Items(Get(r, Jokes))
    ensures |Items(Get(r, Jokes))| == |Items(Get(s, Jokes))| + Fetches(picks)
    ensures Exits(picks) ==> Get(r, Quit) == VBool(true)
    ensures !Exits(picks) ==> Get(r, Quit) == Get(s, Quit)
    ensures Get(r, Language) == Get(s, Language)
  {
    if picks == [] then s
    else
      var p := picks[0];
      var m := Apply(Schema(), s, ShowMenu(p.choice));
      ApplyUntouched(Schema(), s, ShowMenu(p.choice), Jokes);
      ApplyUntouched(Schema(), s, ShowMenu(p.choice), Quit);
      ApplyUntouched(Schema(), s, ShowMenu(p.choice), Language);
      ApplyUntouched(Schema(), s, ShowMenu(p.choice), Category);
      ApplyWrites(Schema(), s, ShowMenu(p.choice), UserChoice);
      if RouteChoice(m) == FetchJokeName then
        FetchJokeAppendsOne(m, p.jokeText, Quit);
        FetchJokeAppendsOne(m, p.jokeText, Language);
        Play(Apply(Schema(), m, FetchJoke(m, p.jokeText)), picks[1..])
      else if RouteChoice(m) == UpdateCategoryName then
        var u := Apply(Schema(), m, UpdateCategory(p.category));
        ApplyUntouched(Schema(), m, UpdateCategory(p.category), Jokes);
        ApplyUntouched(Schema(), m, UpdateCategory(p.category), Quit);
        ApplyUntouched(Schema(), m, UpdateCategory(p.category), Language);
        Play(u, picks[1..])
      else
        ApplyUntouched(Schema(), m, ExitBot(), Jokes);
        ApplyUntouched(Schema(), m, ExitBot(), Language);
        ApplyWrites(Schema(), m, ExitBot(), Quit);
        Apply(Schema(), m, ExitBot())
  }

  /** From the default state, fetching twice and then quitting leaves two jokes, tagged "neutral", and quits. */
  lemma TwoJokesThenQuit(a: string, b: string)
    ensures var r := Play(InitialState(), [Pick("n", a, ""), Pick("n", b, ""), Pick("q", "", "")]);
            && Items(Get(r, Jokes)) == [VJoke(Joke(a, "neutral")), VJoke(Joke(b, "neutral"))]
            && Get(r, Quit) == VBool(true)
  {
    var picks := [Pick("n", a, ""), Pick("n", b, ""), Pick("q", "", "")];
    var s0 := InitialState();
    var m0 := Apply(Schema(), s0, ShowMenu("n"));
    ApplyUntouched(Schema(), s0, ShowMenu("n"), Category);
    ApplyUntouched(Schema(), s0, ShowMenu("n"), Jokes);
    ApplyWrites(Schema(), s0, ShowMenu("n"), UserChoice);
    FetchJokeAppendsOne(m0, a, Category);
    var s1 := Apply(Schema(), m0, FetchJoke(m0, a));
    var m1 := Apply(Schema(), s1, ShowMenu("n"));
    ApplyUntouched(Schema(), s1, ShowMenu("n"), Category);
    ApplyUntouched(Schema(), s1, ShowMenu("n"), Jokes);
    ApplyWrites(Schema(), s1, ShowMenu("n"), UserChoice);
    FetchJokeAppendsOne(m1, b, Category);
    var s2 := Apply(Schema(), m1, FetchJoke(m1, b));
    var m2 := Apply(Schema(), s2, ShowMenu("q"));
    ApplyUntouched(Schema(), s2, ShowMenu("q"), Jokes);
    ApplyWrites(Schema(), s2, ShowMenu("q"), UserChoice);
    ApplyUntouched(Schema(), m2, ExitBot(), Jokes);
    assert picks[1..] == [Pick("n", b, ""), Pick("q", "", "")];
    assert picks[1..][1..] == [Pick("q", "", "")];
  }
}
