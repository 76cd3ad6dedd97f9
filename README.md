# LangGraph agents of agentic-ai-certification, modelled in Dafny

This project models the agent code of the agentic-ai-certification
repository: the LangGraph graphs of the A3 publication assistant (a3/), the
jokes bot (jokes-bot/), the tag extractor (tag-extractor/), the menu
playground (playground/) and the search bot (search-bot/), the prompt
builders (src/llm/prompt_builder.py, a3/prompt_builder.py), and the
retrieval code (src/rag.py, src/embedding.py, src/lecture-4.py, and both
vector stores).

## Shared model

- **State merging.** A graph state is a map from a per-graph field type to
  a `Value`: None, booleans, ints, strings, jokes, chat messages and lists.
  A node returns a sparse update, and `Merge.Apply` merges it field by field
  under that graph's reducer:
  - Replace for plain fields;
  - Append for `add_messages` and `operator.add`;
  - the jokes bot's `joke_reducer`.
- **Graph builder.** `Graph.StateGraph` records the builder calls:
  `add_node`, `add_edge` (with a list of sources, a join),
  `add_conditional_edges`, `set_entry_point` and
  `set_conditional_entry_point`. Each agent's `create_agent` or
  `build_*_graph` is a method that makes those calls in the source's order.
  Lemmas about the resulting topology show that:
  - every edge and mapping target is registered;
  - routers only return names their mapping covers;
  - joins wait for the right nodes.
- **Outside inputs.** Model replies, review verdicts, critic scores,
  duplicate checks, query distances, tool results and user answers are
  parameters. The agents' loops take one answer per round (`nat -> ...`),
  so each termination and bound lemma holds for every sequence of answers.

## Inconsistencies in the source, modelled as written

- The A3 nodes (a3/nodes/a3_nodes.py) read and write flat state keys
  (`title`, `tldr_approved`, `title_gen_messages`, …). a3/constants.py:12-23
  declares some of these keys, and `A3State` (a3/states/a3_state.py:28-43)
  nests them in `Reviewable` records. The nodes are modelled over the flat
  keys they use (`A3Nodes`). The nested record and its initialiser are
  modelled separately (`A3States`).
- The TL;DR generator builds its prompt from `title_gen_messages`
  (a3_nodes.py:58), not from `tldr_gen_messages`. Both generators also
  extend that list in place with `+=` before returning (lines 63-68 and
  96-101). On the state object the node is handed, the title history
  therefore gains the TL;DR generator's feedback too.
  `A3NodeFacts.SharedHistoryAliasing` states this for that object. Whether
  the extension also reaches the stored channel depends on how LangGraph
  builds the state object, so the graph run does not include it.
- `route_from_reviewer` is annotated as returning
  `Literal["revision_dispatcher", "end"]`, but it returns either "end" or
  the list of both generators. There is no revision-dispatcher node. The
  model follows the code, so a revision re-runs both generators, and an
  approved one then skips its work.
- `show_saved_jokes` calls `retrieve_jokes()` without its required `joke`
  argument (jokes-bot/nodes.py:152), so choosing it raises. `JokesMain.MenuStep`
  reports that choice as `Crashed`.
- jokes-bot/nodes.py imports `writer_prompt` and `critic_prompt`, which
  jokes-bot/prompts.py does not define. The model keeps only the fields the
  writer's prompt is formatted with.
- a3/prompt_builder.py imports `PromptConfig` from the standard module
  `types`, not from a3/classes.py. The model uses a3/classes.py's fields.
- src/lecture-4.py has its own `chunk_publication` and `insert_publications`.
  They behave the same as src/embedding.py's with the default chunk size and
  overlap: lecture-4 fixes those values, prints a progress line, and builds
  the metadata list in a local variable first. Both are modelled once, in
  `Embedding`.

## Model

| member | source | states |
|---|---|---|
| Merge.ApplyWrites | jokes-bot/state.py:9-15 | A written field takes the update's value under Replace, the old list followed by the update's list under Append, and under joke_reducer either an empty list (empty update) or the concatenation |
| Merge.ApplyUntouched | jokes-bot/state.py:8-16 | A field the update does not mention keeps its value |
| Merge.ApplyEmpty | a3/nodes/a3_nodes.py:53-55 | An empty update, as a skipping node returns, changes nothing |
| Merge.ApplyCommutes | a3/graphs/a3_graph.py:37-38 | Two updates with disjoint keys give the same state in either order, so parallel branches may be merged in any order |
| JokesReducers.EmptyUpdateResets | jokes-bot/reducers.py:6-12 | An empty update resets the list to empty |
| JokesReducers.NonEmptyUpdateAppends | jokes-bot/reducers.py:6-12 | A non-empty update keeps the current list as a prefix and adds the update after it, nothing else |
| JokesReducers.ResetIdempotent | jokes-bot/reducers.py:6-12 | Resetting twice is resetting once |
| JokesState.InitialState | jokes-bot/state.py:8-16 | Defaults: no jokes, no rejected jokes, choice "next_joke", the first category, English, not quitting, not approved, no joke under review |
| JokesState.JokeListsUseJokeReducer | jokes-bot/state.py:9-15 | `jokes` and `rejected_jokes` merge with joke_reducer: cleared by an empty update, appended to otherwise |
| JokesState.OtherFieldsReplaced | jokes-bot/state.py:10-16 | Every other field is replaced by the value written |
| JokesNodeFacts.WriterPromptContents | jokes-bot/nodes.py:48-57 | Previous jokes reach the writer exactly when the setting asks for them; the rejected jokes' text is empty when there are none and otherwise starts with the first and ends with the last rejected joke |
| JokesNodeFacts.GenerateJokeTagsCategory | jokes-bot/nodes.py:48-66 | The joke under review is the model's reply tagged with the current category; nothing else changes |
| JokesNodeFacts.CriticVerdict | jokes-bot/nodes.py:69-95 | `approved` is the verdict; approval clears the rejected jokes, and rejection appends the joke under review to them |
| JokesNodeFacts.DuplicateSkipsModel | jokes-bot/nodes.py:70-80 | A joke found in the store is rejected without calling the critic model, whatever score it would give |
| JokesNodeFacts.CriticKeepsOthers | jokes-bot/nodes.py:92-95 | The critic touches only `approved` and `rejected_jokes` |
| JokesNodeFacts.ShowApprovedJokeSaves | jokes-bot/nodes.py:98-107 | The approved joke is appended to `jokes`, and the joke under review and the approval are reset; nothing else changes |
| JokesNodeFacts.RetriesEndClears | jokes-bot/nodes.py:110-112 | Giving up clears the joke under review and the rejected jokes, nothing else |
| JokesNodeFacts.ResetJokesEmpties | jokes-bot/nodes.py:158-160 | Reset empties `jokes` (through joke_reducer) and changes nothing else |
| JokesNodeFacts.ExitBotQuits | jokes-bot/nodes.py:163-164 | Exit sets `quit` and changes nothing else |
| JokesNodeFacts.ChangeLanguageEffect | jokes-bot/nodes.py:129-148 | No answer leaves the state unchanged; an answer becomes the language; no other field changes |
| JokesMain.BuildJokeGraph | jokes-bot/main.py:23-53 | The builder calls register exactly the joke topology |
| JokesMain.JokeEndpointsRegistered | jokes-bot/main.py:23-53 | Every edge and every mapping target of the graph is a registered node, START or END |
| JokesMain.JokeEdgesRegistered | jokes-bot/main.py:44-51 | Every plain edge starts at a registered node or START and ends at a registered node or END |
| JokesMain.BranchesReachRegisteredNodes | jokes-bot/main.py:37-42 | The menu's mapping sends each menu choice to the node of that name, and the critic router's answer is a registered node |
| JokesMain.JokeFlow | jokes-bot/main.py:35-51 | The run starts at the menu, the writer always goes to the critic, every menu action returns to the menu, and exit ends the run |
| JokesMain.WriteAndCritiqueEffect | jokes-bot/main.py:14-20 | One write-and-critique round: the verdict, the rejected list cleared or grown by the new joke, the saved jokes and the settings unchanged |
| JokesMain.Request | jokes-bot/main.py:14-20 | A joke request ends back at the menu after at most 5 - (already rejected) attempts; it saves either nothing or exactly one joke, tagged with the current category, after the saved jokes |
| JokesMain.AtMostFiveAttempts | jokes-bot/main.py:17-18 | From the menu, a request makes at most five attempts (`len(rejected_jokes) > 4` ends it) |
| JokesMain.AlwaysRejectedGivesUp | jokes-bot/main.py:17-18 | When the critic never approves, the request uses all its attempts and saves nothing |
| JokesMain.MenuStep | jokes-bot/nodes.py:167-198 | One menu choice: only a joke request makes attempts, at most five; exit sets `quit`; the saved-jokes choice crashes; every other choice returns to the menu |
| JokesMain.RunMenu | jokes-bot/main.py:23-53 | A session of menu choices: one request per choice at most, each with at most five attempts, ending ready at the menu unless it exits or crashes |
| JokesMain.InitialStateMenuReady | jokes-bot/state.py:14-15 | The default state is ready at the menu |
| JokesStore.IsJokeExistsIff | jokes-bot/vector_store/vector_store.py:80-83 | A joke exists exactly when some returned distance is below the threshold |
| JokesStore.InsertJoke | jokes-bot/vector_store/vector_store.py:30-50 | The collection gains the joke's text, the id `str(size + 1)` and the category metadata, in that order |
| JokesStore.InsertJokeExtendsNumbering | jokes-bot/vector_store/vector_store.py:37-43 | The new joke's id, the collection's size + 1, extends the numbering 1..n by one |
| JokesStore.NextJokeIdFresh | jokes-bot/vector_store/vector_store.py:37-42 | The next joke's id is not among the ids already given |
| JokesStore.JokeIdsDistinct | jokes-bot/vector_store/vector_store.py:37-42 | Joke ids are pairwise distinct |
| QueryResults.KeptIndexes | jokes-bot/vector_store/vector_store.py:68-70 | The kept indexes are exactly those whose distance is below the threshold, increasing and in range |
| QueryResults.FilterShape | src/vector_store/vector_store.py:88-96 | The filtered ids, documents and distances stay aligned, are no more than the input, and every kept distance is below the threshold |
| QueryResults.FilterSound | src/vector_store/vector_store.py:88-96 | Every kept entry is an input entry, with its id, document and distance together, whose distance is below the threshold |
| QueryResults.FilterComplete | src/vector_store/vector_store.py:88-96 | Every input entry below the threshold is kept, with its id, document and distance together |
| QueryResults.KeptIffBelowThreshold | jokes-bot/vector_store/vector_store.py:68-70 | An index is kept if and only if its distance is below the threshold |
| QueryResults.FilterMonotone | src/vector_store/vector_store.py:75-90 | Raising the threshold keeps every entry a lower threshold kept |
| Rag.MarkKept | src/rag.py:50-53 | The flag array has one entry per result, and entry i is set exactly when distance i is below the threshold |
| Rag.FilterResults | src/rag.py:55-59 | The second loop produces exactly the threshold filter of the results |
| Rag.RetrieveRelevantDocuments | src/rag.py:11-61 | The returned documents are the filtered documents, no more than were returned by the query |
| Rag.FilterStep | src/rag.py:55-59 | One step of the second loop appends entry i to ids, documents and distances exactly when it is below the threshold |
| PublicationStore.InsertPublications | src/vector_store/vector_store.py:49-69 | The collection gains every publication's chunks, ids "{id}-{index}" and title metadata, aligned and in order |
| PublicationStore.ChunkIdsDistinct | src/vector_store/vector_store.py:61 | The chunk ids of one publication are pairwise distinct |
| PublicationStore.AllAligned | src/vector_store/vector_store.py:61-69 | The ids, chunks and metadata added are equally many |
| Chroma.Collection.Add | src/vector_store/vector_store.py:64-69 | Adding appends the given ids, documents and metadata, keeping them aligned |
| Embedding.ChunkPublication | src/embedding.py:6-26 | One record per chunk, in order, with the title and chunk id "{title}_{i}" (also the same loop in src/lecture-4.py, lines 37-42) |
| Embedding.ChunkRecordsFaithful | src/embedding.py:19-25 | Records keep each chunk's text and the title, and their chunk ids are pairwise distinct |
| Embedding.InsertPublication | src/embedding.py:57-71 | One publication adds its contents and metadata under ids "document_k" from next_id on, and next_id advances by its chunk count |
| Embedding.InsertPublications | src/embedding.py:46-71 | The collection gains one consecutive run of ids "document_k" starting at its old size, with all chunks' contents and metadata aligned to them (also src/lecture-4.py, lines 65-96) |
| Embedding.DocumentIdsSplit | src/embedding.py:63-71 | Consecutive runs of document ids join into one run, so advancing next_id by the chunk count leaves no gap |
| Embedding.DocumentIdsDistinct | src/embedding.py:63-64 | The document ids of a run are pairwise distinct |
| Lecture4.SearchResearchDb | src/lecture-4.py:114-124 | The loop produces exactly one relevant chunk per result, in order |
| Lecture4.RelevantChunkFaithful | src/lecture-4.py:114-124 | Chunk i carries document i, similarity + distance = 1, and the metadata's title or "Unknown Publication" |
| Lecture4.SimilarityReversesDistance | src/lecture-4.py:123 | A smaller distance gives a higher similarity and conversely |
| Lecture4.ContextSnoc | src/lecture-4.py:138-141 | No chunks give an empty context; each further chunk adds a blank line and "From {title}:\n{content}" at the end |
| Lecture4.ContextBounds | src/lecture-4.py:138-141 | The context starts with the first chunk's "From {title}:" line and ends with the last chunk's content |
| Strings.NatToStringRoundTrip | jokes-bot/vector_store/vector_store.py:42 | Reading back the numeral `str(n)` gives n |
| Strings.NatToStringInjective | jokes-bot/vector_store/vector_store.py:42 | Distinct numbers have distinct numerals |
| Strings.PrefixedNumeralsDistinct | src/embedding.py:24 | A fixed prefix followed by distinct numbers gives distinct strings |
| Strings.JoinSnoc | src/llm/prompt_builder.py:71 | Joining one more part adds the separator and that part at the end |
| Strings.JoinStartsWithFirst | src/llm/prompt_builder.py:71 | A join starts with its first part |
| Strings.JoinEndsWithLast | src/llm/prompt_builder.py:71 | A join ends with its last part |
| Strings.JoinLength | src/llm/prompt_builder.py:71 | A join's length is the parts' total length plus one separator between each pair |
| Strings.StripSlice | a3/nodes/a3_nodes.py:73-77 | `strip()` keeps a contiguous slice, drops only whitespace around it, and leaves no whitespace at either end |
| Strings.StripIdempotent | a3/nodes/a3_nodes.py:73-77 | Stripping twice is stripping once |
| PromptBuilder.LowercaseFirstChar | src/llm/prompt_builder.py:74-83 | Same length; the first character is lower-cased, the rest kept |
| PromptBuilder.LowercaseFirstCharIdempotent | src/llm/prompt_builder.py:74-83 | Lower-casing the first character twice is doing it once |
| PromptBuilder.BuildPromptFromConfig | src/llm/prompt_builder.py:4-71 | Without an instruction, the missing-instruction error; otherwise the sections in order joined by blank lines |
| PromptBuilder.RoleInstructionContextOrder | src/llm/prompt_builder.py:22-31 | A given role sentence is the first part; the instruction section comes right after it (first without a role); a given context comes right after the instruction |
| PromptBuilder.GoalIsLastSection | src/llm/prompt_builder.py:60-70 | A given goal is the last section: right before the content block when there is an input, right before the closing line otherwise |
| PromptBuilder.AppendExamples | src/llm/prompt_builder.py:52-58 | The examples add their lead and one line per example, or a lead and a paragraph |
| PromptBuilder.PromptEndsWithClosingLine | src/llm/prompt_builder.py:70-71 | Every prompt ends with the closing line |
| PromptBuilder.PromptOpening | src/llm/prompt_builder.py:22-27 | A prompt opens with the role sentence when a role is given, and with the instruction otherwise |
| PromptBuilder.InputAddsContentBlock | src/llm/prompt_builder.py:63-68 | A non-empty input adds exactly its stripped content block before the closing line |
| PromptBuilder.PromptPartCount | src/llm/prompt_builder.py:22-71 | The number of sections is the count of the given optional parts, plus the instruction and the closing line |
| PromptBuilder.ExamplesPartLength | src/llm/prompt_builder.py:52-58 | Listed examples give 1 + n parts; a given paragraph gives 2; none gives 0 |
| PromptBuilder.MinimalPrompt | src/llm/prompt_builder.py:4-71 | An instruction alone gives that section, a blank line and the closing line |
| PromptConfigs.PrefixedItems | a3/prompt_builder.py:11-23 | Item i of a list section is its prefix for i + 1 followed by the item |
| PromptConfigs.ExamplePrefixesDistinct | a3/prompt_builder.py:11-23 | Distinct example numbers give distinct prefixes |
| A3PromptBuilder.BuildPromptBody | a3/prompt_builder.py:26-87 | The body is the parts joined by blank lines |
| A3PromptBuilder.AppendSections | a3/prompt_builder.py:29-70 | The sections up to the goal, in order, each only when given |
| A3PromptBuilder.RoleInstructionContextOrder | a3/prompt_builder.py:29-38 | A given role sentence is the first part; a truthy instruction comes right after whichever of those is present; a given context comes right after the role and instruction parts present |
| A3PromptBuilder.EmptyConfigEmptyBody | a3/prompt_builder.py:26-87 | An empty configuration with no input gives an empty body |
| A3PromptBuilder.RoleOpensBody | a3/prompt_builder.py:29-30 | A given role opens the body with "You are {role}." |
| A3PromptBuilder.EmptyInstructionSkipped | a3/prompt_builder.py:32-35 | An empty instruction is treated as none |
| A3PromptBuilder.InputAddsContentAndClosing | a3/prompt_builder.py:72-85 | An input adds its stripped content block before the strategy and the closing line after it |
| A3PromptBuilder.StrategyAfterContent | a3/prompt_builder.py:79-82 | A known, non-empty reasoning strategy is the last part without input, and comes right after the content with input |
| A3PromptBuilder.FormatAgreesWithoutPrefix | a3/prompt_builder.py:11-23 | Without a prefix, A3's section formatting is the one of src/llm/prompt_builder.py |
| A3PromptBuilder.ExamplesNumberedFromOne | a3/prompt_builder.py:11-23 | The examples section starts with its lead and the first example numbered 1, and ends with the last numbered n |
| A3States.A3State.constructor | a3/states/a3_state.py:28-43 | Fresh state: empty manager, fresh generators, empty reviewer, round 0 |
| A3States.InitializeA3State | a3/states/a3_state.py:46-81 | Each role's history is its prompt body as system message followed by its input lead and the text; round 0 and the cap are stored |
| A3Nodes.RunTitleGenerator | a3/nodes/a3_nodes.py:85-110 | Returns the title update and extends the shared title history in place |
| A3Nodes.RunTldrGenerator | a3/nodes/a3_nodes.py:52-77 | Returns the TL;DR update and extends the title history in place |
| A3NodeFacts.ManagerBroadcastsBrief | a3/nodes/a3_nodes.py:33-44 | The manager appends its reply to its own history, stores the stripped brief and sends it to the three other histories; nothing else changes |
| A3NodeFacts.ApprovedGeneratorSkips | a3/nodes/a3_nodes.py:53-55 | An approved generator returns an empty update whatever the model would say, and changes nothing |
| A3NodeFacts.TitleGeneratorWritesDraft | a3/nodes/a3_nodes.py:96-110 | Otherwise the title is the stripped reply, its feedback is cleared and the history gains the request and the reply |
| A3NodeFacts.TitleGeneratorKeepsOthers | a3/nodes/a3_nodes.py:106-110 | The title generator writes only the title, its feedback and its history |
| A3NodeFacts.TldrGeneratorWritesDraft | a3/nodes/a3_nodes.py:63-77 | The TL;DR is the stripped reply, its feedback is cleared and its history gains the request and the reply |
| A3NodeFacts.TldrGeneratorKeepsOthers | a3/nodes/a3_nodes.py:73-77 | The TL;DR generator writes only the TL;DR, its feedback and its history |
| A3NodeFacts.GeneratorUpdatesCommute | a3/graphs/a3_graph.py:37-38 | The generators' updates have disjoint keys and merge the same in either order |
| A3NodeFacts.SharedHistoryAliasing | a3/nodes/a3_nodes.py:58-68 | Both in-place `+=` land on the title history, and the TL;DR prompt is the title prompt plus the TL;DR request |
| A3NodeFacts.ReviewerAtCap | a3/nodes/a3_nodes.py:123-131 | At the cap, the reviewer makes no model call, approves both, ends revision, keeps the round and its history |
| A3NodeFacts.ReviewerBelowCapCounts | a3/nodes/a3_nodes.py:149-151 | Below the cap, the model is called, the round grows by one and revision is needed exactly when one part is rejected |
| A3NodeFacts.ReviewerBelowCapVerdict | a3/nodes/a3_nodes.py:165-186 | Below the cap, the approvals and the feedback are the review's |
| A3NodeFacts.ReviewerBelowCapHistory | a3/nodes/a3_nodes.py:163-164 | Below the cap, the reviewer's history gains the review as JSON |
| A3NodeFacts.RouteEndsIffNoRevision | a3/nodes/a3_nodes.py:191-204 | The route is "end" exactly when no revision is needed, and both generators otherwise |
| A3Graph.BuildA3Graph | a3/graphs/a3_graph.py:15-52 | The builder calls register exactly the A3 topology |
| A3Graph.A3EndpointsRegistered | a3/graphs/a3_graph.py:19-50 | Every edge, join and mapping target is a registered node, START or END |
| A3Graph.A3Flow | a3/graphs/a3_graph.py:35-40 | START leads to the manager, the manager fans out to both generators, and only the join of both generators reaches the reviewer |
| A3Graph.ReviewerRouteCovered | a3/graphs/a3_graph.py:42-50 | Every answer of the reviewer's router is mapped, "end" to END and each generator to itself |
| A3Graph.GenerateStepKeeps | a3/graphs/a3_graph.py:37-40 | A generation round writes only the generators' fields |
| A3Graph.ReviewStepKeeps | a3/graphs/a3_graph.py:40-50 | A review round keeps the brief, the manager's history, the cap and both drafts |
| A3Graph.SelectiveTitleRegeneration | a3/nodes/a3_nodes.py:85-110 | An approved title survives a revision round unchanged; a rejected one is replaced by the stripped reply |
| A3Graph.SelectiveTldrRegeneration | a3/nodes/a3_nodes.py:52-77 | An approved TL;DR survives a revision round unchanged; a rejected one is replaced by the stripped reply |
| A3Graph.Revise | a3/graphs/a3_graph.py:37-50 | The revision loop terminates with both parts approved and no revision needed, after at most cap - round model reviews, counting one round per model review |
| A3Graph.RunA3 | a3/graphs/a3_graph.py:15-52 | A whole run ends with both parts approved, the manager's brief stored, and the round equal to the model reviews |
| A3Graph.RoundNeverExceedsCap | a3/nodes/a3_nodes.py:123-131 | From round 0, the round never exceeds the cap, and the reviewer runs at most cap + 1 times |
| A3Graph.TitleRejectedOnce | a3/nodes/a3_nodes.py:118-204 | A title rejected once with cap 2: two reviews, the second reply becomes the title, the TL;DR is kept |
| A3Graph.AlwaysRejectedStopsAtCap | a3/nodes/a3_nodes.py:123-131 | A title always rejected with cap 1: one model review, then the cap approves it |
| TagExtractor.InitialState | tag-extractor/main.py:5-10 | The document as given, and four empty tag lists |
| TagExtractor.ExtractorWritesOwnField | tag-extractor/main.py:13-25 | Each extractor writes only its own list, with its fixed tags |
| TagExtractor.ExtractorsCommute | tag-extractor/main.py:13-25 | Two different extractors' updates merge the same in either order |
| TagExtractor.FanOutStepWrites | tag-extractor/main.py:13-25 | After the fan-out the three lists hold "a", "b" and "c"; the document and the final list are kept |
| TagExtractor.AggregationEffect | tag-extractor/main.py:28-33 | With all three lists non-empty the final list is their concatenation; otherwise nothing changes |
| TagExtractor.CreateAgent | tag-extractor/main.py:51-76 | The builder calls register exactly the tag topology |
| TagExtractor.TagEndpointsRegistered | tag-extractor/main.py:51-76 | Every edge, join and mapping target is a registered node, START or END |
| TagExtractor.TagFlow | tag-extractor/main.py:44-74 | The router's answers are covered by the entry mapping; only the join of the three extractors reaches aggregation, then final_node, then END |
| TagExtractor.InvokeResult | tag-extractor/main.py:44-82 | A non-empty document ends with tags a, b, c; no document or an empty one ends with none |
| TagExtractor.HeyYieldsAllTags | tag-extractor/main.py:82 | Invoking with "Hey" yields the tags a, b, c |
| Playground.InitialState | playground/run-lang-graph-playground.py:15-20 | Defaults: no jokes, choice "n", category "neutral", English, not quitting |
| Playground.RouteChoiceCases | playground/run-lang-graph-playground.py:69-77 | "n" goes to the fetcher and "c" to the category update, each exactly; anything else exits |
| Playground.BuildJokeGraph | playground/run-lang-graph-playground.py:80-104 | The builder calls register exactly the playground topology |
| Playground.PlaygroundFlow | playground/run-lang-graph-playground.py:88-102 | Endpoints registered; the router's answer maps to itself; fetcher and category update return to the menu; exit leads to END |
| Playground.FetchJokeAppendsOne | playground/run-lang-graph-playground.py:44-48 | A fetch appends exactly one joke, tagged with the current category; nothing else changes |
| Playground.AddKeepsWhereJokeReducerClears | playground/run-lang-graph-playground.py:15-20 | Under `operator.add` an empty update keeps the jokes, where the jokes bot's reducer clears them |
| Playground.Play | playground/run-lang-graph-playground.py:23-104 | A session keeps earlier jokes, adds one per "n", quits exactly when a pick exits, and never changes the language |
| Playground.TwoJokesThenQuit | playground/run-lang-graph-playground.py:44-66 | Two fetches then "q" leave the two jokes, tagged "neutral", and quit |
| SearchBot.LlmNodeAddsOne | search-bot/main.py:30-37 | The llm node appends exactly its reply to the history |
| SearchBot.FirstUnknown | search-bot/main.py:47-53 | The first unregistered tool call, with all earlier calls registered, or none when all are registered |
| SearchBot.ToolsNode | search-bot/main.py:40-55 | The loop fails on the first unregistered tool's name, and otherwise answers every call in order |
| SearchBot.ToolsFailIffUnknown | search-bot/main.py:42-53 | The tools node fails exactly when some call names an unregistered tool, and then with such a name |
| SearchBot.ToolsAnswerEveryCall | search-bot/main.py:47-55 | On success the history gains one tool message per call, in order, with the call's result and id |
| SearchBot.CreateAgent | search-bot/main.py:68-79 | The builder calls register exactly the search topology |
| SearchBot.SearchFlow | search-bot/main.py:58-77 | START leads to llm, tools return to llm, and llm goes to tools exactly when the last message has tool calls and ends otherwise |

## Left out

- Model calls, embeddings, the text splitter and Chroma's nearest-neighbour search are not modelled. Their outputs are parameters: replies, reviews, scores, duplicate flags, chunks and query results with their distances.
- Floating point is not modelled. Distances, similarities and scores are Dafny `real`, so rounding and `float()` parsing of the critic's reply are left out.
- Chroma's `query` arguments (`n_results`/`k`, the top-5 limit) and the stored embeddings are left out. The model sees the first row of the query's result only.
- LangGraph's runtime is not modelled: true parallelism of fan-out branches (they run as sequential merges, proved order-independent), checkpointing, `recursion_limit` (jokes-bot/main.py:62) and `add_messages`' replacement of a message with the same id (modelled as appending).
- Interactive input is modelled as parameters: `input()` menus, category prompts and the change-language loop (an answer or none). Console printing, including the tag extractor's `final_node`, is not modelled; the tag extractor's final node is a no-op update.
- Pydantic validation of states and of the reviewer's structured output is left out. `ReviewOutput` is taken as given.
- `str.lower()` is modelled for ASCII letters only (`Strings.ToLower`). Full Unicode case mapping is not modelled.
- Loading prompt configurations and reasoning strategies from YAML (a3/main.py, a3/paths.py) is left out. The configurations and the strategy map are parameters.
- jokes-bot/constants.py (thresholds and feature flags) is not part of this model. Its values are the `Settings` parameters.
- The store write of the approved joke inside `show_approved_joke` (jokes-bot/nodes.py:101) is left out, because the store is a separate object outside the graph state. `JokesStore.InsertJoke` models the write itself.
- The search bot's tool implementations (`add_numbers_tool`) are not modelled. The registry's names and the tools' stringified results are parameters.
- SearchBot.SearchFlow: says nothing about termination of the llm/tool loop, because the source has no bound on it other than LangGraph's recursion limit.
- A3Graph.GenerateStep: merges only the updates the two generators return. It leaves out their in-place extension of `title_gen_messages` (a3/nodes/a3_nodes.py:63, 96), because whether that extension reaches the stored state depends on LangGraph's runtime, which is not modelled. `Revise` and `RunA3` therefore say nothing about that history.
- JokesMain.RunMenu: does not bound the session's length, because the menu loop of the source runs until the user exits.
