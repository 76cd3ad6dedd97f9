/**
 * jokes-bot/main.py: the joke bot's graph and its critic router.  The menu
 * sends the run to the node the user picked; a joke request runs the writer
 * and the critic until the critic approves or five jokes have been
 * rejected.  `Request` runs one such request on the node functions of
 * JokesNodes, with one set of answers per attempt, and proves that it ends
 * within five attempts and leaves the state ready for the next menu.
 */
module JokesMain {
  import opened Wrappers
  import opened Values
  import opened Merge
  import opened Graph
  import opened JokesState
  import opened JokesNodes
  import opened JokesNodeFacts

  const ShowMenuName: string := "show_menu"
  const GenerateJokeName: string := "generate_joke"
  const ChangeCategoryName: string := "change_category"
  const ChangeLanguageName: string := "change_language"
  const ShowSavedJokesName: string := "show_saved_jokes"
  const ResetJokesName: string := "reset_jokes"
  const ExitBotName: string := "exit_bot"
  const CriticJokeName: string := "critic_joke"
  const ShowApprovedJokeName: string := "show_approved_joke"
  const RetriesEndName: string := "retries_end"

  /** The menu entries, in the order `main_menu_nodes` lists them. */
  const MainMenuNames: seq<string> :=
    [GenerateJokeName, ChangeCategoryName, ChangeLanguageName, ShowSavedJokesName, ResetJokesName, ExitBotName]

  /** Rejections that end a request: more than this many. */
  const MaxRejections: nat := 4

  function RejectedCount(s: State): nat {
    |Items(Get(s, RejectedJokes))|
  }

  /** `critic_router`: an approved joke is shown; otherwise the request gives up after five rejections or retries. */
  function CriticRouter(s: State): string {
    if Truthy(Get(s, Approved)) then ShowApprovedJokeName
    else if RejectedCount(s) > MaxRejections then RetriesEndName
    else GenerateJokeName
  }

  /** The topology `build_joke_graph` registers. */
  function JokeTopology(): Topology {
    Topology([ShowMenuName, GenerateJokeName, ChangeCategoryName, ChangeLanguageName, ShowSavedJokesName,
              ResetJokesName, ExitBotName, CriticJokeName, ShowApprovedJokeName, RetriesEndName],
             [Edge(Start, ShowMenuName),
              Edge(GenerateJokeName, CriticJokeName),
              Edge(ShowApprovedJokeName, ShowMenuName),
              Edge(RetriesEndName, ShowMenuName),
              Edge(ChangeCategoryName, ShowMenuName),
              Edge(ChangeLanguageName, ShowMenuName),
              Edge(ShowSavedJokesName, ShowMenuName),
              Edge(ResetJokesName, ShowMenuName),
              Edge(ExitBotName, End)],
             [],
             [Branch(ShowMenuName, None), Branch(CriticJokeName, None)])
  }

  /** `build_joke_graph`: the nodes, then the entry point and the edges, in the source's order. */
  method BuildJokeGraph() returns (t: Topology)
    ensures t == JokeTopology()
  {
    var graph := new StateGraph();
    RegisterJokeNodes(graph);
    RegisterJokeEdges(graph);
    t := graph.Snapshot();
  }

  /** The node registrations of `build_joke_graph`: the menu, the menu entries in a loop, then the rest. */
  method RegisterJokeNodes(graph: StateGraph)
    requires graph.Snapshot() == Topology([], [], [], [])
    modifies graph
    ensures graph.Snapshot() == Topology(JokeTopology().nodes, [], [], [])
  {
    graph.AddNode(ShowMenuName);
    for i := 0 to |MainMenuNames|
      invariant graph.Snapshot() == Topology([ShowMenuName] + MainMenuNames[..i], [], [], [])
    {
      graph.AddNode(MainMenuNames[i]);
      assert MainMenuNames[..i + 1] == MainMenuNames[..i] + [MainMenuNames[i]];
    }
    graph.AddNode(CriticJokeName);
    graph.AddNode(ShowApprovedJokeName);
    graph.AddNode(RetriesEndName);
  }

  /** The entry point, the two routers and the plain edges of `build_joke_graph`. */
  method RegisterJokeEdges(graph: StateGraph)
    requires graph.Snapshot() == Topology(JokeTopology().nodes, [], [], [])
    modifies graph
    ensures graph.Snapshot() == JokeTopology()
  {
    graph.SetEntryPoint(ShowMenuName);
    graph.AddConditionalEdges(ShowMenuName, None);
    graph.AddConditionalEdges(CriticJokeName, None);
    graph.AddEdge(GenerateJokeName, CriticJokeName);
    graph.AddEdge(ShowApprovedJokeName, ShowMenuName);
    graph.AddEdge(RetriesEndName, ShowMenuName);
    graph.AddEdge(ChangeCategoryName, ShowMenuName);
    graph.AddEdge(ChangeLanguageName, ShowMenuName);
    graph.AddEdge(ShowSavedJokesName, ShowMenuName);
    graph.AddEdge(ResetJokesName, ShowMenuName);
    graph.AddEdge(ExitBotName, End);
  }

  lemma JokeEndpointsRegistered()
    ensures EndpointsRegistered(JokeTopology())
  {
    JokeEdgesRegistered();
    JokeBranchesRegistered();
  }

  /** Both branches leave registered nodes, and neither has a routing map. */
  lemma JokeBranchesRegistered()
    ensures BranchSourcesRegistered(JokeTopology()) && MappingsRegistered(JokeTopology())
  {
    var t := JokeTopology();
    JokeNodesListed();
    forall b | b in t.branches
      ensures IsSource(t, b.source) && b.mapping.None?
    {
      assert b == Branch(ShowMenuName, None) || b == Branch(CriticJokeName, None);
    }
  }

  /** Every name `build_joke_graph` registers is among the graph's nodes. */
  lemma JokeNodesListed()
    ensures var ns := JokeTopology().nodes;
            && ShowMenuName in ns && GenerateJokeName in ns && ChangeCategoryName in ns && ChangeLanguageName in ns
            && ShowSavedJokesName in ns && ResetJokesName in ns && ExitBotName in ns && CriticJokeName in ns
            && ShowApprovedJokeName in ns && RetriesEndName in ns
  {
    var ns := JokeTopology().nodes;
    assert ns[0] == ShowMenuName && ns[1] == GenerateJokeName && ns[2] == ChangeCategoryName;
    assert ns[3] == ChangeLanguageName && ns[4] == ShowSavedJokesName && ns[5] == ResetJokesName;
    assert ns[6] == ExitBotName && ns[7] == CriticJokeName && ns[8] == ShowApprovedJokeName && ns[9] == RetriesEndName;
  }

  /** Every plain edge of the joke graph leaves and reaches registered names. */
  lemma JokeEdgesRegistered()
    ensures EdgesRegistered(JokeTopology())
  {
    JokeShapeEdgesRegistered(ShowMenuName, GenerateJokeName, ChangeCategoryName, ChangeLanguageName, ShowSavedJokesName,
                             ResetJokesName, ExitBotName, CriticJokeName, ShowApprovedJokeName, RetriesEndName,
                             JokeTopology().joins, JokeTopology().branches);
  }

  /**
   * The edges of `build_joke_graph` connect registered names whatever the
   * ten node names are: each edge leaves START or a node and reaches END or
   * a node.
   */
  lemma JokeShapeEdgesRegistered(menu: string, writer: string, category: string, language: string, saved: string,
                                 reset: string, exit: string, critic: string, approved: string, retries: string,
                                 joins: seq<Join>, branches: seq<Branch>)
    ensures EdgesRegistered(Topology([menu, writer, category, language, saved, reset, exit, critic, approved, retries],
                                     [Edge(Start, menu), Edge(writer, critic), Edge(approved, menu), Edge(retries, menu),
                                      Edge(category, menu), Edge(language, menu), Edge(saved, menu), Edge(reset, menu),
                                      Edge(exit, End)],
                                     joins, branches))
  {
    var ns := [menu, writer, category, language, saved, reset, exit, critic, approved, retries];
    var t := Topology(ns,
                      [Edge(Start, menu), Edge(writer, critic), Edge(approved, menu), Edge(retries, menu),
                       Edge(category, menu), Edge(language, menu), Edge(saved, menu), Edge(reset, menu),
                       Edge(exit, End)],
                      joins, branches);
    assert ns[0] == menu && ns[1] == writer && ns[2] == category && ns[3] == language && ns[4] == saved;
    assert ns[5] == reset && ns[6] == exit && ns[7] == critic && ns[8] == approved && ns[9] == retries;
    EdgesRegisteredByIndex(t);
  }

  /**
   * After the menu the run goes to the node the user picked, which is a
   * registered node whenever the pick is a menu entry; the critic's router
   * always names a registered node.
   */
  lemma BranchesReachRegisteredNodes(s: State, choice: string)
    ensures Resolve(JokeTopology(), ShowMenuName, choice) == Some(choice)
    ensures choice in MainMenuNames ==> choice in JokeTopology().nodes
    ensures Resolve(JokeTopology(), CriticJokeName, CriticRouter(s)) == Some(CriticRouter(s))
    ensures CriticRouter(s) in JokeTopology().nodes
  {
  }

  /**
   * The run enters at the menu; the writer always leads to the critic;
   * every other action returns to the menu, except `exit_bot`, which ends
   * the run.
   */
  lemma JokeFlow()
    ensures Successors(JokeTopology(), Start) == {ShowMenuName}
    ensures Successors(JokeTopology(), GenerateJokeName) == {CriticJokeName}
    ensures forall n :: n in {ShowApprovedJokeName, RetriesEndName, ChangeCategoryName, ChangeLanguageName,
                               ShowSavedJokesName, ResetJokesName} ==>
              Successors(JokeTopology(), n) == {ShowMenuName}
    ensures Successors(JokeTopology(), ExitBotName) == {End}
  {
    StartLeadsToMenu();
    WriterLeadsToCritic();
    ExitEnds();
    forall n | n in {ShowApprovedJokeName, RetriesEndName, ChangeCategoryName, ChangeLanguageName,
                     ShowSavedJokesName, ResetJokesName}
      ensures Successors(JokeTopology(), n) == {ShowMenuName}
    {
      ActionReturnsToMenu(n);
    }
  }

  lemma StartLeadsToMenu()
    ensures Successors(JokeTopology(), Start) == {ShowMenuName}
  {
    assert JokeTopology().edges[0] == Edge(Start, ShowMenuName);
  }

  lemma WriterLeadsToCritic()
    ensures Successors(JokeTopology(), GenerateJokeName) == {CriticJokeName}
  {
    assert JokeTopology().edges[1] == Edge(GenerateJokeName, CriticJokeName);
  }

  lemma ExitEnds()
    ensures Successors(JokeTopology(), ExitBotName) == {End}
  {
    assert JokeTopology().edges[8] == Edge(ExitBotName, End);
  }

  lemma ActionReturnsToMenu(n: string)
    requires n in {ShowApprovedJokeName, RetriesEndName, ChangeCategoryName, ChangeLanguageName,
                   ShowSavedJokesName, ResetJokesName}
    ensures Successors(JokeTopology(), n) == {ShowMenuName}
  {
    var t := JokeTopology();
    assert n != Start && n != GenerateJokeName && n != ExitBotName;
    forall e | e in t.edges && e.source == n
      ensures e.target == ShowMenuName
    {
    }
    assert Edge(n, ShowMenuName) in t.edges;
  }

  // ---------------------------------------------------------------------------
  // One joke request

  /** The inputs of one writer/critic attempt: the writer's reply, the store's duplicate verdict, the critic's score. */
  datatype Attempt = Attempt(reply: string, duplicate: bool, score: real)

  /** The state in which the menu runs: nothing rejected, nothing approved. */
  predicate MenuReady(s: State) {
    Get(s, RejectedJokes) == VList([]) && Get(s, Approved) == VBool(false)
  }

  /** `generate_joke`, then `critic_joke`. */
  function WriteAndCritique(s: State, settings: Settings, a: Attempt): State {
    var g := Apply(Schema(), s, GenerateJoke(s, a.reply));
    Apply(Schema(), g, CriticJoke(g, settings, a.duplicate, a.score))
  }

  /** The fields a request never writes. */
  predicate SameSettings(s: State, t: State) {
    && Get(t, Category) == Get(s, Category) && Get(t, Language) == Get(s, Language)
    && Get(t, UserChoice) == Get(s, UserChoice) && Get(t, Quit) == Get(s, Quit)
  }

  /**
   * One attempt: the critic approves the new joke, or it lands at the end
   * of the rejection list; the saved jokes and the settings are untouched.
   */
  lemma WriteAndCritiqueEffect(s: State, settings: Settings, a: Attempt)
    ensures var t, joke := WriteAndCritique(s, settings, a), VJoke(Joke(a.reply, StrOf(Get(s, Category))));
            && Get(t, Approved) == VBool(Approves(settings, a.duplicate, a.score))
            && (Approves(settings, a.duplicate, a.score) ==> Get(t, RejectedJokes) == VList([]))
            && (!Approves(settings, a.duplicate, a.score) ==>
                  Get(t, RejectedJokes) == VList(Items(Get(s, RejectedJokes)) + [joke]))
            && Get(t, JokeForReview) == joke && Get(t, Jokes) == Get(s, Jokes) && SameSettings(s, t)
  {
    var g := Apply(Schema(), s, GenerateJoke(s, a.reply));
    GenerateJokeTagsCategory(s, a.reply);
    CriticVerdict(g, settings, a.duplicate, a.score);
    CriticKeepsOthers(g, settings, a.duplicate, a.score, JokeForReview);
    CriticKeepsOthers(g, settings, a.duplicate, a.score, Jokes);
    CriticKeepsOthers(g, settings, a.duplicate, a.score, Category);
    CriticKeepsOthers(g, settings, a.duplicate, a.score, Language);
    CriticKeepsOthers(g, settings, a.duplicate, a.score, UserChoice);
    CriticKeepsOthers(g, settings, a.duplicate, a.score, Quit);
  }

  /** What one request yields: the state back at the menu, the attempts made, and the joke saved, if any. */
  datatype RequestOutcome = RequestOutcome(final: State, attempts: nat, saved: Option<Joke>)

  /**
   * A joke request from the writer on, in state `s` with attempt `k`'s
   * answers next: the critic's router decides after every attempt.
   *
   * Whatever the writer, the store and the critic answer, the request ends
   * after at most five attempts in all (counting those rejected before it
   * began), back at the menu with nothing rejected and nothing approved; at
   * most one joke, tagged with the current category, joins the saved jokes.
   */
  function Request(s: State, settings: Settings, answers: nat -> Attempt, k: nat): (o: RequestOutcome)
    requires RejectedCount(s) <= MaxRejections
    decreases MaxRejections - RejectedCount(s)
    ensures MenuReady(o.final) && SameSettings(s, o.final) && Get(o.final, JokeForReview) == VNone
    ensures 1 <= o.attempts <= MaxRejections + 1 - RejectedCount(s)
    ensures o.saved.None? ==> Get(o.final, Jokes) == Get(s, Jokes)
    ensures o.saved.Some? ==> Get(o.final, Jokes) == VList(Items(Get(s, Jokes)) + [VJoke(o.saved.value)])
    ensures o.saved.Some? ==> o.saved.value.category == StrOf(Get(s, Category))
  {
    var c := WriteAndCritique(s, settings, answers(k));
    WriteAndCritiqueEffect(s, settings, answers(k));
    if CriticRouter(c) == ShowApprovedJokeName then
      ShowApprovedReturnsToMenu(s, c);
      RequestOutcome(Apply(Schema(), c, ShowApprovedJoke(c)), 1, Some(Joke(answers(k).reply, StrOf(Get(s, Category)))))
    else if CriticRouter(c) == RetriesEndName then
      RetriesEndReturnsToMenu(s, c);
      RequestOutcome(Apply(Schema(), c, RetriesEnd(c)), 1, None)
    else
      var o := Request(c, settings, answers, k + 1);
      RequestOutcome(o.final, o.attempts + 1, o.saved)
  }

  /** Showing the approved joke saves it and leaves the bot ready for the menu, settings untouched. */
  lemma ShowApprovedReturnsToMenu(s: State, c: State)
    requires Get(c, RejectedJokes) == VList([]) && SameSettings(s, c)
    ensures var t := Apply(Schema(), c, ShowApprovedJoke(c));
            && MenuReady(t) && SameSettings(s, t) && Get(t, JokeForReview) == VNone
            && Get(t, Jokes) == VList(Items(Get(c, Jokes)) + [Get(c, JokeForReview)])
  {
    ShowApprovedJokeSaves(c);
    var t := Apply(Schema(), c, ShowApprovedJoke(c));
    assert Get(t, RejectedJokes) == Get(c, RejectedJokes);
    assert Get(t, Category) == Get(c, Category) && Get(t, Language) == Get(c, Language);
    assert Get(t, UserChoice) == Get(c, UserChoice) && Get(t, Quit) == Get(c, Quit);
  }

  /** Giving up leaves the bot ready for the menu, with the saved jokes and the settings untouched. */
  lemma RetriesEndReturnsToMenu(s: State, c: State)
    requires Get(c, Approved) == VBool(false) && SameSettings(s, c)
    ensures var t := Apply(Schema(), c, RetriesEnd(c));
            && MenuReady(t) && SameSettings(s, t) && Get(t, JokeForReview) == VNone && Get(t, Jokes) == Get(c, Jokes)
  {
    RetriesEndClears(c);
    var t := Apply(Schema(), c, RetriesEnd(c));
    assert Get(t, Approved) == Get(c, Approved) && Get(t, Jokes) == Get(c, Jokes);
    assert Get(t, Category) == Get(c, Category) && Get(t, Language) == Get(c, Language);
    assert Get(t, UserChoice) == Get(c, UserChoice) && Get(t, Quit) == Get(c, Quit);
  }

  /** A request that starts at the menu runs the writer at most five times. */
  lemma AtMostFiveAttempts(s: State, settings: Settings, answers: nat -> Attempt, k: nat)
    requires MenuReady(s)
    ensures Request(s, settings, answers, k).attempts <= 5
  {
  }

  /** A critic that rejects everything: the request runs the writer exactly five times and saves nothing. */
  lemma AlwaysRejectedGivesUp(s: State, settings: Settings, answers: nat -> Attempt, k: nat)
    requires RejectedCount(s) <= MaxRejections
    requires forall j :: !Approves(settings, answers(j).duplicate, answers(j).score)
    ensures Request(s, settings, answers, k).attempts == MaxRejections + 1 - RejectedCount(s)
    ensures Request(s, settings, answers, k).saved == None
    decreases MaxRejections - RejectedCount(s)
  {
    var c := WriteAndCritique(s, settings, answers(k));
    WriteAndCritiqueEffect(s, settings, answers(k));
    assert RejectedCount(c) == RejectedCount(s) + 1;
    if RejectedCount(c) <= MaxRejections {
      assert CriticRouter(c) == GenerateJokeName;
      AlwaysRejectedGivesUp(c, settings, answers, k + 1);
    } else {
      assert CriticRouter(c) == RetriesEndName;
    }
  }

  // ---------------------------------------------------------------------------
  // The menu

  /**
   * What the user does at one menu: the pick, and the answers the picked
   * action needs (a category, the outcome of the language prompt, or the
   * attempts of a joke request).
   */
  datatype MenuInput = MenuInput(choice: string, category: string, language: Option<string>, attempts: nat -> Attempt)

  /** Back at the menu (with the writer runs made), the run ended, or the run failed. */
  datatype MenuResult = Back(state: State, attempts: nat) | Exited(state: State) | Crashed(reason: string)

  /**
   * `show_saved_jokes` calls the store's `retrieve_jokes` without the joke it
   * requires, so the call fails before anything is shown.
   */
  const MissingJokeArgument: string := "retrieve_jokes() missing 1 required positional argument: 'joke'"

  /**
   * One pass through the menu: `show_menu` records the pick and the run
   * continues at the picked node.  Every path back to the menu leaves it
   * ready again, so every request runs the writer at most five times.
   */
  function MenuStep(s: State, settings: Settings, input: MenuInput): (r: MenuResult)
    requires MenuReady(s) && input.choice in MainMenuNames
    ensures r.Back? ==> MenuReady(r.state) && r.attempts <= 5
    ensures r.Back? && r.attempts > 0 ==> input.choice == GenerateJokeName
    ensures r.Exited? <==> input.choice == ExitBotName
    ensures r.Exited? ==> Get(r.state, Quit) == VBool(true)
    ensures r.Crashed? <==> input.choice == ShowSavedJokesName
  {
    var m := Apply(Schema(), s, ShowMenu(input.choice));
    ApplyUntouched(Schema(), s, ShowMenu(input.choice), RejectedJokes);
    ApplyUntouched(Schema(), s, ShowMenu(input.choice), Approved);
    ApplyWrites(Schema(), s, ShowMenu(input.choice), UserChoice);
    var next := StrOf(Get(m, UserChoice));
    if next == GenerateJokeName then
      var o := Request(m, settings, input.attempts, 0);
      Back(o.final, o.attempts)
    else if next == ChangeCategoryName then
      ApplyUntouched(Schema(), m, ChangeCategory(input.category), RejectedJokes);
      ApplyUntouched(Schema(), m, ChangeCategory(input.category), Approved);
      Back(Apply(Schema(), m, ChangeCategory(input.category)), 0)
    else if next == ChangeLanguageName then
      ChangeLanguageEffect(m, input.language);
      Back(ApplyResult(Schema(), m, ChangeLanguage(input.language)), 0)
    else if next == ShowSavedJokesName then
      Crashed(MissingJokeArgument)
    else if next == ResetJokesName then
      ResetJokesEmpties(m);
      Back(Apply(Schema(), m, ResetJokes()), 0)
    else
      ExitBotQuits(m);
      Exited(Apply(Schema(), m, ExitBot()))
  }

  /** What a session yields: how it ended (or the last state if the inputs ran out) and the writer runs per menu pass. */
  datatype Session = Session(last: MenuResult, attempts: seq<nat>)

  /**
   * The bot from a ready menu through the user's picks, until it exits,
   * fails, or the picks run out.  No request in the whole session runs the
   * writer more than five times.
   */
  function RunMenu(s: State, settings: Settings, inputs: seq<MenuInput>): (r: Session)
    requires MenuReady(s)
    requires forall i :: 0 <= i < |inputs| ==> inputs[i].choice in MainMenuNames
    ensures |r.attempts| <= |inputs|
    ensures forall i :: 0 <= i < |r.attempts| ==> r.attempts[i] <= 5
    ensures r.last.Back? ==> MenuReady(r.last.state)
    decreases |inputs|
  {
    if |inputs| == 0 then Session(Back(s, 0), [])
    else
      var step := MenuStep(s, settings, inputs[0]);
      if step.Back? then
        assert forall i :: 0 <= i < |inputs| - 1 ==> inputs[1..][i] == inputs[i + 1];
        var rest := RunMenu(step.state, settings, inputs[1..]);
        Session(rest.last, [step.attempts] + rest.attempts)
      else Session(step, [])
  }

  /** The bot starts ready for its menu. */
  lemma InitialStateMenuReady(categories: seq<string>)
    requires |categories| > 0
    ensures MenuReady(InitialState(categories))
  {
  }
}
