/**
 * jokes-bot/state.py: the joke bot's state.  `jokes` and `rejected_jokes`
 * merge through joke_reducer; every other field is replaced by an update.
 */
module JokesState {
  import opened Values
  import opened Merge

  datatype Field = Jokes | UserChoice | Category | Language | Quit | JokeForReview | RejectedJokes | Approved

  type State = map<Field, Value>
  type Update = map<Field, Value>

  /** The reducer annotations of `JokeState`. */
  function Schema(): map<Field, Reducer> {
    map[Jokes := JokeReducer, RejectedJokes := JokeReducer]
  }

  /**
   * `JokeState()`: no jokes, the first configured category, English, no
   * joke under review, nothing rejected, not approved, not quitting.
   * `categories` is the configured list, which the default indexes.
   */
  function InitialState(categories: seq<string>): (s: State)
    requires |categories| > 0
    ensures Get(s, Jokes) == VList([]) && Get(s, RejectedJokes) == VList([])
    ensures Get(s, UserChoice) == VStr("next_joke") && Get(s, Category) == VStr(categories[0])
    ensures Get(s, Language) == VStr("en")
    ensures Get(s, Quit) == VBool(false) && Get(s, Approved) == VBool(false) && Get(s, JokeForReview) == VNone
  {
    map[Jokes := VList([]), UserChoice := VStr("next_joke"), Category := VStr(categories[0]),
        Language := VStr("en"), Quit := VBool(false), JokeForReview := VNone,
        RejectedJokes := VList([]), Approved := VBool(false)]
  }

  /** The two joke lists follow joke_reducer: an empty update clears them, a non-empty one appends. */
  lemma JokeListsUseJokeReducer(s: State, u: Update, f: Field)
    requires f in u && (f == Jokes || f == RejectedJokes)
    ensures Items(u[f]) == [] ==> Get(Apply(Schema(), s, u), f) == VList([])
    ensures Items(u[f]) != [] ==> Get(Apply(Schema(), s, u), f) == VList(Items(Get(s, f)) + Items(u[f]))
  {
    ApplyWrites(Schema(), s, u, f);
  }

  /** Every other field an update names takes the update's value. */
  lemma OtherFieldsReplaced(s: State, u: Update, f: Field)
    requires f in u && f != Jokes && f != RejectedJokes
    ensures Get(Apply(Schema(), s, u), f) == u[f]
  {
    ApplyWrites(Schema(), s, u, f);
  }
}
