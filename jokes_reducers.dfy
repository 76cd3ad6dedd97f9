/** jokes-bot/reducers.py: the merge rule of the joke lists. */
module JokesReducers {

  /**
   * `joke_reducer(current, new)`: an empty incoming list clears the field,
   * a non-empty one is appended after the current list.
   */
  function JokeReducer<T>(current: seq<T>, incoming: seq<T>): seq<T> {
    if |incoming| == 0 then [] else current + incoming
  }

  /** An empty update is not a no-op: it resets the list whatever it held. */
  lemma EmptyUpdateResets<T>(current: seq<T>)
    ensures JokeReducer(current, []) == []
  {
  }

  /** A non-empty update keeps the current list as a prefix and the new items, in order, after it. */
  lemma NonEmptyUpdateAppends<T>(current: seq<T>, incoming: seq<T>)
    requires incoming != []
    ensures var r := JokeReducer(current, incoming);
            |r| == |current| + |incoming| && r[..|current|] == current && r[|current|..] == incoming
  {
  }

  /** Resetting twice is resetting once. */
  lemma ResetIdempotent<T>(current: seq<T>)
    ensures JokeReducer(JokeReducer(current, []), []) == JokeReducer(current, [])
  {
  }
}
