/**
 * src/embedding.py: turning publications into Chroma records.  Each chunk
 * becomes a record carrying the publication's title and the chunk id
 * "{title}_{i}"; insertion numbers the records "document_k" from the
 * collection's size on.  src/lecture-4.py repeats the same two functions
 * (its `chunk_publication` and `insert_publications`), so this module models
 * both.  The text splitter and the embedding model are not modelled: each
 * publication comes with its chunks.
 */
module Embedding {
  import opened Strings
  import opened Chroma

  /** One chunk with its metadata: `{"content", "title", "chunk_id"}`. */
  datatype ChunkRecord = ChunkRecord(content: string, title: string, chunkId: string)

  /** The record `chunk_publication` makes for chunk `i`. */
  function ChunkRecordAt(chunks: seq<string>, title: string, i: nat): ChunkRecord
    requires i < |chunks|
  {
    ChunkRecord(chunks[i], title, title + "_" + NatToString(i))
  }

  /** The records of all chunks, in order. */
  function ChunkRecords(chunks: seq<string>, title: string): (r: seq<ChunkRecord>)
    ensures |r| == |chunks|
  {
    seq(|chunks|, i requires 0 <= i < |chunks| => ChunkRecordAt(chunks, title, i))
  }

  /**
   * `chunk_publication` after the split: one record per chunk, in order,
   * each with the given title and its chunk id.
   */
  method ChunkPublication(chunks: seq<string>, title: string) returns (records: seq<ChunkRecord>)
    ensures records == ChunkRecords(chunks, title)
  {
    records := [];
    for i := 0 to |chunks|
      invariant records == ChunkRecords(chunks[..i], title)
    {
      records := records + [ChunkRecord(chunks[i], title, title + "_" + NatToString(i))];
    }
    assert chunks[..|chunks|] == chunks;
  }

  /** The records keep the chunks, in order, and the title; the chunk ids are pairwise distinct. */
  lemma ChunkRecordsFaithful(chunks: seq<string>, title: string, i: nat, j: nat)
    requires i < |chunks| && j < |chunks|
    ensures ChunkRecords(chunks, title)[i].content == chunks[i]
    ensures ChunkRecords(chunks, title)[i].title == title
    ensures i != j ==> ChunkRecords(chunks, title)[i].chunkId != ChunkRecords(chunks, title)[j].chunkId
  {
    if i != j {
      PrefixedNumeralsDistinct(title + "_", i, j);
    }
  }

  /** `[chunk["content"] for chunk in chunked_publication]`. */
  function Contents(records: seq<ChunkRecord>): (r: seq<string>)
    ensures |r| == |records|
  {
    seq(|records|, i requires 0 <= i < |records| => records[i].content)
  }

  /** `[{"title": chunk["title"], "chunk_id": chunk["chunk_id"]} for chunk in chunked_publication]`. */
  function Metadatas(records: seq<ChunkRecord>): (r: seq<map<string, string>>)
    ensures |r| == |records|
  {
    seq(|records|, i requires 0 <= i < |records| => map["title" := records[i].title, "chunk_id" := records[i].chunkId])
  }

  /** `[f"document_{id}" for id in range(start, start + n)]`. */
  function DocumentIds(start: nat, n: nat): (r: seq<string>)
    ensures |r| == n
  {
    seq(n, k requires 0 <= k < n => "document_" + NatToString(start + k))
  }

  /** A publication: its title and its chunks. */
  datatype Publication = Publication(title: string, chunks: seq<string>)

  /** What the publications add, in order: the chunk count, the contents and the metadata records. */
  function TotalChunks(ps: seq<Publication>): nat
    decreases |ps|
  {
    if |ps| == 0 then 0 else TotalChunks(ps[..|ps| - 1]) + |ps[|ps| - 1].chunks|
  }

  /** The contents and the metadata records one publication adds. */
  function PubContents(p: Publication): seq<string>
  {
    Contents(ChunkRecords(p.chunks, p.title))
  }

  function PubMetadatas(p: Publication): seq<map<string, string>>
  {
    Metadatas(ChunkRecords(p.chunks, p.title))
  }

  function AllContents(ps: seq<Publication>): seq<string>
    decreases |ps|
  {
    if |ps| == 0 then [] else AllContents(ps[..|ps| - 1]) + PubContents(ps[|ps| - 1])
  }

  function AllMetadatas(ps: seq<Publication>): seq<map<string, string>>
    decreases |ps|
  {
    if |ps| == 0 then [] else AllMetadatas(ps[..|ps| - 1]) + PubMetadatas(ps[|ps| - 1])
  }

  lemma AllStep(ps: seq<Publication>, i: nat)
    requires i < |ps|
    ensures TotalChunks(ps[..i + 1]) == TotalChunks(ps[..i]) + |ps[i].chunks|
    ensures AllContents(ps[..i + 1]) == AllContents(ps[..i]) + PubContents(ps[i])
    ensures AllMetadatas(ps[..i + 1]) == AllMetadatas(ps[..i]) + PubMetadatas(ps[i])
  {
    assert ps[..i + 1][..i] == ps[..i];
  }

  /** Consecutive runs of document ids concatenate into one run. */
  lemma DocumentIdsSplit(start: nat, a: nat, b: nat)
    ensures DocumentIds(start, a) + DocumentIds(start + a, b) == DocumentIds(start, a + b)
  {
    var l, r := DocumentIds(start, a) + DocumentIds(start + a, b), DocumentIds(start, a + b);
    forall k | 0 <= k < a + b
      ensures l[k] == r[k]
    {
      if k >= a {
        assert l[k] == DocumentIds(start + a, b)[k - a];
      }
    }
  }

  /** The body of `insert_publications`' loop: chunk one publication and add it under the ids from `nextId` on. */
  method InsertPublication(c: Collection, p: Publication, nextId: nat) returns (added: nat)
    requires c.Valid()
    modifies c
    ensures c.Valid() && added == |p.chunks|
    ensures c.ids == old(c.ids) + DocumentIds(nextId, added)
    ensures c.documents == old(c.documents) + PubContents(p)
    ensures c.metadatas == old(c.metadatas) + PubMetadatas(p)
  {
    var records := ChunkPublication(p.chunks, p.title);
    var ids := DocumentIds(nextId, |records|);
    c.Add(Contents(records), ids, Metadatas(records));
    added := |records|;
  }

  /**
   * The collection after inserting the publications `done` into one that
   * held `ids0`, `documents0` and `metadatas0`, numbering from `start`.
   */
  predicate Inserted(c: Collection, ids0: seq<string>, documents0: seq<string>, metadatas0: seq<map<string, string>>,
                     start: nat, done: seq<Publication>)
    reads c
  {
    && c.Valid()
    && c.ids == ids0 + DocumentIds(start, TotalChunks(done))
    && c.documents == documents0 + AllContents(done)
    && c.metadatas == metadatas0 + AllMetadatas(done)
  }

  /** One turn of `insert_publications`' loop: publication `i` goes in, and `next_id` moves past its chunks. */
  method InsertNext(c: Collection, ps: seq<Publication>, i: nat, start: nat, nextId: nat,
                    ghost ids0: seq<string>, ghost documents0: seq<string>, ghost metadatas0: seq<map<string, string>>)
    returns (next: nat)
    requires i < |ps| && nextId == start + TotalChunks(ps[..i])
    requires Inserted(c, ids0, documents0, metadatas0, start, ps[..i])
    modifies c
    ensures next == start + TotalChunks(ps[..i + 1])
    ensures Inserted(c, ids0, documents0, metadatas0, start, ps[..i + 1])
  {
    var added := InsertPublication(c, ps[i], nextId);
    AllStep(ps, i);
    DocumentIdsSplit(start, TotalChunks(ps[..i]), added);
    next := nextId + added;
  }

  /**
   * `insert_publications`: `next_id` starts at the collection's size; each
   * publication is chunked and added under the next ids, and `next_id`
   * moves on by its chunk count.  The collection gains one consecutive run
   * of "document_k" ids, starting at its old size, with the chunks'
   * contents and metadata records aligned to them.
   */
  method InsertPublications(c: Collection, ps: seq<Publication>)
    requires c.Valid()
    modifies c
    ensures c.Valid()
    ensures c.ids == old(c.ids) + DocumentIds(old(c.Count()), TotalChunks(ps))
    ensures c.documents == old(c.documents) + AllContents(ps)
    ensures c.metadatas == old(c.metadatas) + AllMetadatas(ps)
  {
    var start := c.Count();
    ghost var ids0, documents0, metadatas0 := c.ids, c.documents, c.metadatas;
    var nextId := start;
    assert ps[..0] == [];
    for i := 0 to |ps|
      invariant nextId == start + TotalChunks(ps[..i])
      invariant Inserted(c, ids0, documents0, metadatas0, start, ps[..i])
    {
      nextId := InsertNext(c, ps, i, start, nextId, ids0, documents0, metadatas0);
    }
    assert ps[..|ps|] == ps;
  }

  /** The document ids of one run are pairwise distinct. */
  lemma DocumentIdsDistinct(start: nat, n: nat, j: nat, k: nat)
    requires j < n && k < n && j != k
    ensures DocumentIds(start, n)[j] != DocumentIds(start, n)[k]
  {
    PrefixedNumeralsDistinct("document_", start + j, start + k);
  }
}
