/**
 * src/rag.py: the filtering half of `retrieve_relevant_documents`.  The
 * query's results are a parameter (the embedding and the Chroma query are
 * not modelled); a flag array marks the results below the threshold, and a
 * second pass copies the marked results, in order, into the relevant lists.
 */
module Rag {
  import opened QueryResults

  /** The default threshold of `retrieve_relevant_documents`. */
  const DefaultThreshold: real := 0.4

  /** `keep_item`: one flag per result, false at first, set for each distance below the threshold. */
  method MarkKept(q: QueryResult, threshold: real) returns (keepItem: array<bool>)
    requires Aligned(q)
    ensures fresh(keepItem) && keepItem.Length == |q.ids|
    ensures forall i :: 0 <= i < keepItem.Length ==> (keepItem[i] <==> q.distances[i] < threshold)
  {
    keepItem := new bool[|q.ids|](_ => false);
    for i := 0 to |q.distances|
      invariant forall j :: 0 <= j < keepItem.Length ==> (keepItem[j] <==> j < i && q.distances[j] < threshold)
    {
      if q.distances[i] < threshold {
        keepItem[i] := true;
      }
    }
  }

  /** The first `i` results of a query. */
  function Take(q: QueryResult, i: nat): (t: QueryResult)
    requires Aligned(q) && i <= |q.ids|
    ensures Aligned(t)
  {
    QueryResult(q.ids[..i], q.documents[..i], q.distances[..i])
  }

  /** One more result decides one more index. */
  lemma KeptIndexesStep(distances: seq<real>, threshold: real, i: nat)
    requires i < |distances|
    ensures KeptIndexes(distances[..i + 1], threshold)
            == KeptIndexes(distances[..i], threshold) + (if distances[i] < threshold then [i] else [])
  {
    assert distances[..i + 1][..i] == distances[..i];
  }

  /** Projecting a longer prefix through indexes of the shorter one, and possibly the new index. */
  lemma ProjectExtend<T>(xs: seq<T>, i: nat, keep: seq<nat>)
    requires i < |xs| && forall j :: 0 <= j < |keep| ==> keep[j] < i
    ensures Project(xs[..i + 1], keep) == Project(xs[..i], keep)
    ensures Project(xs[..i + 1], keep + [i]) == Project(xs[..i], keep) + [xs[i]]
  {
  }

  /** The result `i` joins the filtered results exactly when its distance is below the threshold. */
  lemma FilterStep(q: QueryResult, threshold: real, i: nat)
    requires Aligned(q) && i < |q.ids|
    ensures var before := Filter(Take(q, i), threshold);
            Filter(Take(q, i + 1), threshold)
              == if q.distances[i] < threshold
                 then QueryResult(before.ids + [q.ids[i]], before.documents + [q.documents[i]], before.distances + [q.distances[i]])
                 else before
  {
    KeptIndexesStep(q.distances, threshold, i);
    var keep := KeptIndexes(q.distances[..i], threshold);
    ProjectExtend(q.ids, i, keep);
    ProjectExtend(q.documents, i, keep);
    ProjectExtend(q.distances, i, keep);
  }

  /**
   * The two loops of lines 49-59: the relevant ids, documents and distances
   * are the query's results below the threshold, in query order, aligned.
   */
  method FilterResults(q: QueryResult, threshold: real) returns (relevant: QueryResult)
    requires Aligned(q)
    ensures relevant == Filter(q, threshold)
  {
    var keepItem := MarkKept(q, threshold);
    var ids: seq<string>, documents: seq<string>, distances: seq<real> := [], [], [];
    for i := 0 to keepItem.Length
      invariant forall j :: 0 <= j < keepItem.Length ==> (keepItem[j] <==> q.distances[j] < threshold)
      invariant QueryResult(ids, documents, distances) == Filter(Take(q, i), threshold)
    {
      FilterStep(q, threshold, i);
      if keepItem[i] {
        ids := ids + [q.ids[i]];
        documents := documents + [q.documents[i]];
        distances := distances + [q.distances[i]];
      }
    }
    assert Take(q, keepItem.Length) == q;
    relevant := QueryResult(ids, documents, distances);
  }

  /** `retrieve_relevant_documents` returns the relevant documents only. */
  method RetrieveRelevantDocuments(q: QueryResult, threshold: real) returns (documents: seq<string>)
    requires Aligned(q)
    ensures documents == Filter(q, threshold).documents
    ensures |documents| <= |q.documents|
  {
    var relevant := FilterResults(q, threshold);
    FilterShape(q, threshold);
    documents := relevant.documents;
  }
}
