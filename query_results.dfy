/**
 * What a vector-store query returns, and the threshold filter the stores and
 * the RAG retriever apply to it: keep the results whose distance is strictly
 * below a threshold, in query order, with ids, documents and distances
 * projected by the same index list.  Distances are reals; floating-point
 * rounding is not modelled.
 */
module QueryResults {

  /** One query's results, as the first row of Chroma's `ids`, `documents` and `distances`. */
  datatype QueryResult = QueryResult(ids: seq<string>, documents: seq<string>, distances: seq<real>)

  /** Chroma returns one id, one document and one distance per result. */
  predicate Aligned(q: QueryResult) {
    |q.ids| == |q.documents| == |q.distances|
  }

  /**
   * `[i for i, d in enumerate(distances) if d < threshold]`: the indexes of
   * the results below the threshold, in increasing order.
   */
  function KeptIndexes(distances: seq<real>, threshold: real): (r: seq<nat>)
    ensures forall j :: 0 <= j < |r| ==> r[j] < |distances| && distances[r[j]] < threshold
    ensures forall j, k :: 0 <= j < k < |r| ==> r[j] < r[k]
    ensures forall i :: 0 <= i < |distances| && distances[i] < threshold ==> i in r
    ensures |r| <= |distances|
    decreases |distances|
  {
    if |distances| == 0 then []
    else
      var init := KeptIndexes(distances[..|distances| - 1], threshold);
      if distances[|distances| - 1] < threshold then init + [|distances| - 1] else init
  }

  /** `[xs[i] for i in indexes]`. */
  function Project<T>(xs: seq<T>, indexes: seq<nat>): (r: seq<T>)
    requires forall j :: 0 <= j < |indexes| ==> indexes[j] < |xs|
    ensures |r| == |indexes| && forall j :: 0 <= j < |indexes| ==> r[j] == xs[indexes[j]]
  {
    seq(|indexes|, j requires 0 <= j < |indexes| => xs[indexes[j]])
  }

  /** The results below the threshold, ids, documents and distances projected alike. */
  function Filter(q: QueryResult, threshold: real): QueryResult
    requires Aligned(q)
  {
    var keep := KeptIndexes(q.distances, threshold);
    QueryResult(Project(q.ids, keep), Project(q.documents, keep), Project(q.distances, keep))
  }

  /** The filter's result is aligned, no longer than the query's, and below the threshold throughout. */
  lemma FilterShape(q: QueryResult, threshold: real)
    requires Aligned(q)
    ensures var f := Filter(q, threshold);
            && Aligned(f) && |f.ids| <= |q.ids|
            && forall j :: 0 <= j < |f.distances| ==> f.distances[j] < threshold
  {
  }

  /** Every entry of the filter's result is one whole result of the query, with its distance below the threshold. */
  lemma FilterSound(q: QueryResult, threshold: real, j: nat)
    requires Aligned(q) && j < |Filter(q, threshold).ids|
    ensures var f := Filter(q, threshold);
            exists i :: 0 <= i < |q.ids| && q.distances[i] < threshold &&
              f.ids[j] == q.ids[i] && f.documents[j] == q.documents[i] && f.distances[j] == q.distances[i]
  {
    var i := KeptIndexes(q.distances, threshold)[j];
    assert q.distances[i] < threshold;
  }

  /** Every result of the query below the threshold is in the filter's result, id, document and distance together. */
  lemma FilterComplete(q: QueryResult, threshold: real, i: nat)
    requires Aligned(q) && i < |q.ids| && q.distances[i] < threshold
    ensures var f := Filter(q, threshold);
            exists j :: 0 <= j < |f.ids| &&
              f.ids[j] == q.ids[i] && f.documents[j] == q.documents[i] && f.distances[j] == q.distances[i]
  {
    var keep := KeptIndexes(q.distances, threshold);
    var j :| 0 <= j < |keep| && keep[j] == i;
    var f := Filter(q, threshold);
    assert f.ids[j] == q.ids[i] && f.documents[j] == q.documents[i] && f.distances[j] == q.distances[i];
  }

  /** A result is dropped exactly when its distance reaches the threshold. */
  lemma KeptIffBelowThreshold(distances: seq<real>, threshold: real, i: nat)
    requires i < |distances|
    ensures i in KeptIndexes(distances, threshold) <==> distances[i] < threshold
  {
    var keep := KeptIndexes(distances, threshold);
    if i in keep {
      var j :| 0 <= j < |keep| && keep[j] == i;
    }
  }

  /** Raising the threshold keeps every result a lower one kept. */
  lemma FilterMonotone(distances: seq<real>, low: real, high: real, i: nat)
    requires low <= high && i in KeptIndexes(distances, low)
    ensures i in KeptIndexes(distances, high)
  {
    var keep := KeptIndexes(distances, low);
    var j :| 0 <= j < |keep| && keep[j] == i;
  }
}

/**
 * A Chroma collection as the stores see it: the ids, documents and
 * metadata records added so far, in order.  Embeddings are not modelled.
 */
module Chroma {

  class Collection {
    var ids: seq<string>
    var documents: seq<string>
    var metadatas: seq<map<string, string>>

    /** One document and one metadata record per id. */
    predicate Valid()
      reads this
    {
      |ids| == |documents| == |metadatas|
    }

    /** `collection.count()`. */
    function Count(): nat
      reads this
    {
      |ids|
    }

    constructor ()
      ensures Valid() && ids == [] && documents == [] && metadatas == []
    {
      ids, documents, metadatas := [], [], [];
    }

    /** `collection.add(documents=..., ids=..., metadatas=...)`, which takes one of each per record. */
    method Add(newDocuments: seq<string>, newIds: seq<string>, newMetadatas: seq<map<string, string>>)
      requires Valid() && |newDocuments| == |newIds| == |newMetadatas|
      modifies this
      ensures Valid()
      ensures ids == old(ids) + newIds && documents == old(documents) + newDocuments
      ensures metadatas == old(metadatas) + newMetadatas
    {
      ids := ids + newIds;
      documents := documents + newDocuments;
      metadatas := metadatas + newMetadatas;
    }
  }
}
