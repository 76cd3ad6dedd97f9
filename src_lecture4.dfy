/**
 * src/lecture-4.py: the research assistant.  Its `chunk_publication` and
 * `insert_publications` are the ones of src/embedding.py (module Embedding).
 * This module models the rest: `search_research_db` turns one query's
 * results into relevant chunks with a similarity of 1 - distance and a
 * title that falls back to "Unknown Publication", and
 * `answer_research_question` joins those chunks into the prompt's context.
 * The query embedding, the Chroma query and the model call are not
 * modelled: the query's results are a parameter.
 */
module Lecture4 {
  import opened Wrappers
  import opened Strings

  /** The first row of a Chroma query's `documents`, `metadatas` and `distances`. */
  datatype SearchResults = SearchResults(
    documents: seq<string>,
    metadatas: seq<Option<map<string, string>>>,
    distances: seq<real>)

  /** Chroma returns one metadata record (or None) and one distance per document. */
  predicate Aligned(r: SearchResults) {
    |r.documents| == |r.metadatas| == |r.distances|
  }

  /** `{"content", "title", "similarity"}`: one relevant chunk. */
  datatype RelevantChunk = RelevantChunk(content: string, title: string, similarity: real)

  const UnknownPublication: string := "Unknown Publication"

  /** `metadata["title"] if metadata and "title" in metadata else "Unknown Publication"`. */
  function TitleOf(metadata: Option<map<string, string>>): string {
    if metadata.Some? && "title" in metadata.value then metadata.value["title"] else UnknownPublication
  }

  /** The chunk the loop appends for result `i`. */
  function ChunkAt(r: SearchResults, i: nat): RelevantChunk
    requires Aligned(r) && i < |r.documents|
  {
    RelevantChunk(r.documents[i], TitleOf(r.metadatas[i]), 1.0 - r.distances[i])
  }

  /** The chunks of all results, in order. */
  function RelevantChunks(r: SearchResults): (chunks: seq<RelevantChunk>)
    requires Aligned(r)
    ensures |chunks| == |r.documents|
  {
    seq(|r.documents|, i requires 0 <= i < |r.documents| => ChunkAt(r, i))
  }

  /**
   * `search_research_db` after the query: one chunk per returned document,
   * appended in the results' order.
   */
  method SearchResearchDb(r: SearchResults) returns (chunks: seq<RelevantChunk>)
    requires Aligned(r)
    ensures chunks == RelevantChunks(r)
  {
    chunks := [];
    for i := 0 to |r.documents|
      invariant |chunks| == i
      invariant forall j :: 0 <= j < i ==> chunks[j] == ChunkAt(r, j)
    {
      var metadata := r.metadatas[i];
      var title := if metadata.Some? && "title" in metadata.value then metadata.value["title"] else UnknownPublication;
      chunks := chunks + [RelevantChunk(r.documents[i], title, 1.0 - r.distances[i])];
    }
  }

  /**
   * Chunk `i` carries document `i` unchanged, its similarity and distance
   * add up to 1, and its title is the metadata's "title" when there is one
   * and "Unknown Publication" otherwise.
   */
  lemma RelevantChunkFaithful(r: SearchResults, i: nat)
    requires Aligned(r) && i < |r.documents|
    ensures RelevantChunks(r)[i].content == r.documents[i]
    ensures RelevantChunks(r)[i].similarity + r.distances[i] == 1.0
    ensures r.metadatas[i].Some? && "title" in r.metadatas[i].value ==> RelevantChunks(r)[i].title == r.metadatas[i].value["title"]
    ensures r.metadatas[i].None? || "title" !in r.metadatas[i].value ==> RelevantChunks(r)[i].title == UnknownPublication
  {
  }

  /** A closer result gets a higher similarity, so the ranking by distance is kept, reversed. */
  lemma SimilarityReversesDistance(r: SearchResults, i: nat, j: nat)
    requires Aligned(r) && i < |r.documents| && j < |r.documents|
    ensures r.distances[i] < r.distances[j] <==> RelevantChunks(r)[i].similarity > RelevantChunks(r)[j].similarity
  {
  }

  /** `f"From {chunk['title']}:\n{chunk['content']}"`. */
  function ContextEntry(c: RelevantChunk): string {
    "From " + c.title + ":\n" + c.content
  }

  function ContextEntries(chunks: seq<RelevantChunk>): (r: seq<string>)
    ensures |r| == |chunks|
  {
    seq(|chunks|, i requires 0 <= i < |chunks| => ContextEntry(chunks[i]))
  }

  /** The research context of `answer_research_question`: the entries joined by blank lines. */
  function Context(chunks: seq<RelevantChunk>): string {
    Join(ContextEntries(chunks), "\n\n")
  }

  /** No chunks give an empty context; one more chunk adds a blank line and its entry at the end. */
  lemma ContextSnoc(chunks: seq<RelevantChunk>, c: RelevantChunk)
    ensures Context([]) == ""
    ensures |chunks| > 0 ==> Context(chunks + [c]) == Context(chunks) + "\n\n" + ContextEntry(c)
  {
    if |chunks| > 0 {
      assert ContextEntries(chunks + [c]) == ContextEntries(chunks) + [ContextEntry(c)];
      JoinSnoc(ContextEntries(chunks), "\n\n", ContextEntry(c));
    }
  }

  /** The context opens with the first chunk's "From {title}:" line and closes with the last chunk's content. */
  lemma ContextBounds(chunks: seq<RelevantChunk>)
    requires |chunks| > 0
    ensures var ctx, lead := Context(chunks), "From " + chunks[0].title + ":\n";
            |ctx| >= |lead| && ctx[..|lead|] == lead
    ensures var ctx, last := Context(chunks), chunks[|chunks| - 1].content;
            |ctx| >= |last| && ctx[|ctx| - |last|..] == last
  {
    var entries := ContextEntries(chunks);
    JoinStartsWithFirst(entries, "\n\n");
    JoinEndsWithLast(entries, "\n\n");
    var lead, first := "From " + chunks[0].title + ":\n", entries[0];
    assert first == lead + chunks[0].content;
    assert first[..|lead|] == lead;
    var last, lastEntry := chunks[|chunks| - 1].content, entries[|entries| - 1];
    assert lastEntry == "From " + chunks[|chunks| - 1].title + ":\n" + last;
    assert lastEntry[|lastEntry| - |last|..] == last;
  }
}
