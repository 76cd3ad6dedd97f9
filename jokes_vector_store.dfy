/**
 * jokes-bot/vector_store/vector_store.py: the joke store.  Retrieval is the
 * threshold filter of QueryResults; a joke exists when some stored joke is
 * close enough; insertion numbers jokes from 1 by the collection's size.
 * The similarity threshold's configured value is a parameter.
 */
module JokesStore {
  import opened Strings
  import opened Values
  import opened QueryResults
  import opened Chroma

  /** `is_joke_exists`: whether the filtered results hold any joke. */
  predicate IsJokeExists(q: QueryResult, threshold: real)
    requires Aligned(q)
  {
    |Filter(q, threshold).documents| > 0
  }

  /** A joke counts as existing exactly when some result's distance is below the threshold. */
  lemma IsJokeExistsIff(q: QueryResult, threshold: real)
    requires Aligned(q)
    ensures IsJokeExists(q, threshold) <==> exists i :: 0 <= i < |q.distances| && q.distances[i] < threshold
  {
    if exists i :: 0 <= i < |q.distances| && q.distances[i] < threshold {
      var i :| 0 <= i < |q.distances| && q.distances[i] < threshold;
      FilterComplete(q, threshold, i);
    }
    if IsJokeExists(q, threshold) {
      FilterSound(q, threshold, 0);
    }
  }

  /** `insert_joke`: one record, the joke's text under the id `str(count + 1)`, with its category. */
  method InsertJoke(c: Collection, joke: Joke)
    requires c.Valid()
    modifies c
    ensures c.Valid()
    ensures c.ids == old(c.ids) + [NatToString(old(c.Count()) + 1)]
    ensures c.documents == old(c.documents) + [joke.text]
    ensures c.metadatas == old(c.metadatas) + [map["category" := joke.category]]
  {
    var index := c.Count() + 1;
    c.Add([joke.text], [NatToString(index)], [map["category" := joke.category]]);
  }

  /** The ids of a collection that only ever had jokes inserted: "1", "2", ..., "n". */
  function JokeIds(n: nat): (r: seq<string>)
    ensures |r| == n
  {
    seq(n, k requires 0 <= k < n => NatToString(k + 1))
  }

  /** Inserting into a collection numbered "1" to "n" adds "n+1" and keeps the numbering without gaps. */
  lemma InsertJokeExtendsNumbering(n: nat)
    ensures JokeIds(n) + [NatToString(n + 1)] == JokeIds(n + 1)
  {
    var a, b := JokeIds(n) + [NatToString(n + 1)], JokeIds(n + 1);
    forall k | 0 <= k < n + 1
      ensures a[k] == b[k]
    {
    }
  }

  /** The id "n+1" is new in a collection numbered "1" to "n". */
  lemma NextJokeIdFresh(n: nat)
    ensures NatToString(n + 1) !in JokeIds(n)
  {
    var ids := JokeIds(n);
    forall j | 0 <= j < n
      ensures ids[j] != NatToString(n + 1)
    {
      NatToStringInjective(j + 1, n + 1);
    }
  }

  /** The ids of a collection numbered "1" to "n" are pairwise distinct. */
  lemma JokeIdsDistinct(n: nat, j: nat, k: nat)
    requires j < k < n
    ensures JokeIds(n)[j] != JokeIds(n)[k]
  {
    NatToStringInjective(j + 1, k + 1);
  }
}
