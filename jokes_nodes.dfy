/**
 * jokes-bot/nodes.py: the writer, the critic and the menu actions of the
 * joke bot as update functions.  The writer's reply, the critic's score
 * (already parsed as a number), the store's duplicate verdict and the
 * user's menu answers are parameters.
 */
module JokesNodes {
  import opened Wrappers
  import opened Values
  import opened Strings
  import opened JokesState

  /**
   * The two constants the nodes read: the score a joke must beat, and
   * whether previous jokes go into the writer's prompt (in which case the
   * critic does not look for duplicates in the store).
   */
  datatype Settings = Settings(funThreshold: real, providePrevJokes: bool)

  /** The text of a joke value; anything else reads as "". */
  function JokeText(v: Value): string {
    if v.VJoke? then v.joke.text else ""
  }

  function JokeTexts(xs: seq<Value>): (r: seq<string>)
    ensures |r| == |xs| && forall i :: 0 <= i < |xs| ==> r[i] == JokeText(xs[i])
  {
    seq(|xs|, i requires 0 <= i < |xs| => JokeText(xs[i]))
  }

  /** What `generate_joke` fills into the writer prompt. */
  datatype WriterFields = WriterFields(category: string, language: string, prevJokes: Option<string>, rejectedJokes: string)

  function WriterPrompt(s: State, settings: Settings): WriterFields {
    WriterFields(StrOf(Get(s, Category)), StrOf(Get(s, Language)),
                 if settings.providePrevJokes then Some(Join(JokeTexts(Items(Get(s, Jokes))), "\n\n")) else None,
                 Join(JokeTexts(Items(Get(s, RejectedJokes))), "\n\n"))
  }

  /** `generate_joke`: the writer's reply becomes the joke under review, tagged with the current category. */
  function GenerateJoke(s: State, reply: string): Update {
    map[JokeForReview := VJoke(Joke(reply, StrOf(Get(s, Category))))]
  }

  /** The critic looks the joke up in the store only when previous jokes are not in the writer's prompt. */
  predicate ChecksStore(settings: Settings) {
    !settings.providePrevJokes
  }

  /** A joke the store already holds is rejected before the model is asked. */
  predicate RejectedAsDuplicate(settings: Settings, duplicate: bool) {
    ChecksStore(settings) && duplicate
  }

  /** Whether `critic_joke` asks the model for a score. */
  predicate CriticCallsModel(settings: Settings, duplicate: bool) {
    !RejectedAsDuplicate(settings, duplicate)
  }

  /**
   * `critic_joke`: a duplicate is rejected; otherwise the joke is approved
   * when its score beats the threshold.  A rejected joke is sent to
   * `rejected_jokes`; an approval sends `[]`, which clears that list.
   */
  function CriticJoke(s: State, settings: Settings, duplicate: bool, score: real): Update {
    if RejectedAsDuplicate(settings, duplicate) then
      map[Approved := VBool(false), RejectedJokes := VList([Get(s, JokeForReview)])]
    else
      var approved := score > settings.funThreshold;
      map[Approved := VBool(approved), RejectedJokes := VList(if approved then [] else [Get(s, JokeForReview)])]
  }

  /** `show_menu`: the user's pick becomes `user_choice`. */
  function ShowMenu(choice: string): Update {
    map[UserChoice := VStr(choice)]
  }

  /** `show_approved_joke`: the joke joins the saved jokes and the review slot is cleared. */
  function ShowApprovedJoke(s: State): Update {
    map[Jokes := VList([Get(s, JokeForReview)]), JokeForReview := VNone, Approved := VBool(false)]
  }

  /** `retries_end`: the review slot and the rejection list are cleared. */
  function RetriesEnd(s: State): Update {
    map[JokeForReview := VNone, RejectedJokes := VList([])]
  }

  /** `change_category`, with the user's pick as a parameter. */
  function ChangeCategory(category: string): Update {
    map[Category := VStr(category)]
  }

  /**
   * `change_language`, with the outcome of its input loop as a parameter:
   * `None` when the user quits the prompt (the node returns None), else the
   * accepted language code.
   */
  function ChangeLanguage(answer: Option<string>): Option<Update> {
    match answer
    case None => None
    case Some(code) => Some(map[Language := VStr(code)])
  }

  /** `reset_jokes`: an empty list, which joke_reducer turns into a reset. */
  function ResetJokes(): Update {
    map[Jokes := VList([])]
  }

  /** `exit_bot`. */
  function ExitBot(): Update {
    map[Quit := VBool(true)]
  }
}

/** What the joke bot's nodes do to the state once their updates are merged. */
module JokesNodeFacts {
  import opened Wrappers
  import opened Values
  import opened Merge
  import opened Strings
  import opened JokesState
  import opened JokesNodes

  /** Whether the critic approves: not a duplicate, and a score strictly above the threshold. */
  predicate Approves(settings: Settings, duplicate: bool, score: real) {
    !RejectedAsDuplicate(settings, duplicate) && score > settings.funThreshold
  }

  /** The writer gets the previous jokes only when so configured, and the rejected jokes always. */
  lemma WriterPromptContents(s: State, settings: Settings)
    ensures WriterPrompt(s, settings).prevJokes.Some? <==> settings.providePrevJokes
    ensures Items(Get(s, RejectedJokes)) == [] ==> WriterPrompt(s, settings).rejectedJokes == ""
    ensures var rs, text := Items(Get(s, RejectedJokes)), WriterPrompt(s, settings).rejectedJokes;
            rs != [] ==> && |text| >= |JokeText(rs[0])| && text[..|JokeText(rs[0])|] == JokeText(rs[0])
                         && |text| >= |JokeText(rs[|rs| - 1])|
                         && text[|text| - |JokeText(rs[|rs| - 1])|..] == JokeText(rs[|rs| - 1])
  {
    var rs := Items(Get(s, RejectedJokes));
    if rs != [] {
      JoinStartsWithFirst(JokeTexts(rs), "\n\n");
      JoinEndsWithLast(JokeTexts(rs), "\n\n");
    }
  }

  /** The new joke under review is the writer's reply in the current category; nothing else changes. */
  lemma GenerateJokeTagsCategory(s: State, reply: string)
    ensures Get(Apply(Schema(), s, GenerateJoke(s, reply)), JokeForReview) == VJoke(Joke(reply, StrOf(Get(s, Category))))
    ensures forall f :: f != JokeForReview ==> Get(Apply(Schema(), s, GenerateJoke(s, reply)), f) == Get(s, f)
  {
    forall f | f != JokeForReview
      ensures Get(Apply(Schema(), s, GenerateJoke(s, reply)), f) == Get(s, f)
    {
      ApplyUntouched(Schema(), s, GenerateJoke(s, reply), f);
    }
  }

  /**
   * The critic's verdict is approval exactly when the joke is no duplicate
   * and its score is strictly above the threshold.  A rejected joke is
   * appended to the rejection list, alone; an approval empties that list.
   */
  lemma CriticVerdict(s: State, settings: Settings, duplicate: bool, score: real)
    ensures var t := Apply(Schema(), s, CriticJoke(s, settings, duplicate, score));
            && Get(t, Approved) == VBool(Approves(settings, duplicate, score))
            && (Approves(settings, duplicate, score) ==> Get(t, RejectedJokes) == VList([]))
            && (!Approves(settings, duplicate, score) ==>
                  Get(t, RejectedJokes) == VList(Items(Get(s, RejectedJokes)) + [Get(s, JokeForReview)]))
  {
    var u := CriticJoke(s, settings, duplicate, score);
    ApplyWrites(Schema(), s, u, Approved);
    ApplyWrites(Schema(), s, u, RejectedJokes);
  }

  /** A duplicate never reaches the model. */
  lemma DuplicateSkipsModel(s: State, settings: Settings, duplicate: bool, score: real)
    requires RejectedAsDuplicate(settings, duplicate)
    ensures !CriticCallsModel(settings, duplicate)
    ensures CriticJoke(s, settings, duplicate, score) == CriticJoke(s, settings, duplicate, settings.funThreshold)
  {
  }

  /** The critic writes only the verdict and the rejection list. */
  lemma CriticKeepsOthers(s: State, settings: Settings, duplicate: bool, score: real, f: Field)
    requires f != Approved && f != RejectedJokes
    ensures Get(Apply(Schema(), s, CriticJoke(s, settings, duplicate, score)), f) == Get(s, f)
  {
    ApplyUntouched(Schema(), s, CriticJoke(s, settings, duplicate, score), f);
  }

  /**
   * Showing an approved joke appends exactly that joke to the saved jokes,
   * empties the review slot, resets the approval and touches nothing else.
   */
  lemma ShowApprovedJokeSaves(s: State)
    ensures var t := Apply(Schema(), s, ShowApprovedJoke(s));
            && Get(t, Jokes) == VList(Items(Get(s, Jokes)) + [Get(s, JokeForReview)])
            && Get(t, JokeForReview) == VNone && Get(t, Approved) == VBool(false)
            && forall f :: f !in {Jokes, JokeForReview, Approved} ==> Get(t, f) == Get(s, f)
  {
    var u := ShowApprovedJoke(s);
    ApplyWrites(Schema(), s, u, Jokes);
    forall f | f !in {Jokes, JokeForReview, Approved}
      ensures Get(Apply(Schema(), s, u), f) == Get(s, f)
    {
      ApplyUntouched(Schema(), s, u, f);
    }
  }

  /** Running out of retries clears the review slot and the rejection list, and nothing else. */
  lemma RetriesEndClears(s: State)
    ensures var t := Apply(Schema(), s, RetriesEnd(s));
            && Get(t, JokeForReview) == VNone && Get(t, RejectedJokes) == VList([])
            && forall f :: f != JokeForReview && f != RejectedJokes ==> Get(t, f) == Get(s, f)
  {
    var u := RetriesEnd(s);
    ApplyWrites(Schema(), s, u, RejectedJokes);
    forall f | f != JokeForReview && f != RejectedJokes
      ensures Get(Apply(Schema(), s, u), f) == Get(s, f)
    {
      ApplyUntouched(Schema(), s, u, f);
    }
  }

  /** `reset_jokes` empties the saved jokes, whatever they held, and nothing else. */
  lemma ResetJokesEmpties(s: State)
    ensures Get(Apply(Schema(), s, ResetJokes()), Jokes) == VList([])
    ensures forall f :: f != Jokes ==> Get(Apply(Schema(), s, ResetJokes()), f) == Get(s, f)
  {
    ApplyWrites(Schema(), s, ResetJokes(), Jokes);
    forall f | f != Jokes
      ensures Get(Apply(Schema(), s, ResetJokes()), f) == Get(s, f)
    {
      ApplyUntouched(Schema(), s, ResetJokes(), f);
    }
  }

  /** `exit_bot` sets `quit` and nothing else. */
  lemma ExitBotQuits(s: State)
    ensures Get(Apply(Schema(), s, ExitBot()), Quit) == VBool(true)
    ensures forall f :: f != Quit ==> Get(Apply(Schema(), s, ExitBot()), f) == Get(s, f)
  {
    forall f | f != Quit
      ensures Get(Apply(Schema(), s, ExitBot()), f) == Get(s, f)
    {
      ApplyUntouched(Schema(), s, ExitBot(), f);
    }
  }

  /** Quitting the language prompt changes nothing; an accepted code replaces the language. */
  lemma ChangeLanguageEffect(s: State, answer: Option<string>)
    ensures answer.None? ==> ApplyResult(Schema(), s, ChangeLanguage(answer)) == s
    ensures answer.Some? ==> Get(ApplyResult(Schema(), s, ChangeLanguage(answer)), Language) == VStr(answer.value)
    ensures forall f :: f != Language ==> Get(ApplyResult(Schema(), s, ChangeLanguage(answer)), f) == Get(s, f)
  {
    if answer.Some? {
      forall f | f != Language
        ensures Get(ApplyResult(Schema(), s, ChangeLanguage(answer)), f) == Get(s, f)
      {
        ApplyUntouched(Schema(), s, ChangeLanguage(answer).value, f);
      }
    }
  }
}
