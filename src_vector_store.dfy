/**
 * src/vector_store/vector_store.py: the publication store.  Retrieval is the
 * threshold filter of QueryResults (default threshold 0.5); insertion adds
 * each publication's chunks under the ids "{id}-{j}", each with a metadata
 * record holding the publication's title.  The text splitter and the
 * embedding model are not modelled: each publication comes with its chunks.
 */
module PublicationStore {
  import opened Strings
  import opened QueryResults
  import opened Chroma

  /** The default threshold of `retrieve_publications`. */
  const DefaultThreshold: real := 0.5

  /** A publication, its description already split into chunks. */
  datatype Publication = Publication(id: string, title: string, chunks: seq<string>)

  /** `[f"{publication['id']}-{index}" for index in range(len(chunks))]`. */
  function ChunkIds(p: Publication): (r: seq<string>)
    ensures |r| == |p.chunks|
  {
    seq(|p.chunks|, j requires 0 <= j < |p.chunks| => p.id + "-" + NatToString(j))
  }

  /** `[{"title": publication["title"]} for _ in chunks]`. */
  function TitleMetadatas(p: Publication): (r: seq<map<string, string>>)
    ensures |r| == |p.chunks|
  {
    seq(|p.chunks|, j requires 0 <= j < |p.chunks| => map["title" := p.title])
  }

  /** Everything the publications add, in order: their chunks, their ids and their metadata records. */
  function AllChunks(ps: seq<Publication>): seq<string>
    decreases |ps|
  {
    if |ps| == 0 then [] else AllChunks(ps[..|ps| - 1]) + ps[|ps| - 1].chunks
  }

  function AllIds(ps: seq<Publication>): seq<string>
    decreases |ps|
  {
    if |ps| == 0 then [] else AllIds(ps[..|ps| - 1]) + ChunkIds(ps[|ps| - 1])
  }

  function AllMetadatas(ps: seq<Publication>): seq<map<string, string>>
    decreases |ps|
  {
    if |ps| == 0 then [] else AllMetadatas(ps[..|ps| - 1]) + TitleMetadatas(ps[|ps| - 1])
  }

  /** Each publication adds as many ids and metadata records as it has chunks. */
  lemma {:induction false} AllAligned(ps: seq<Publication>)
    ensures |AllIds(ps)| == |AllChunks(ps)| == |AllMetadatas(ps)|
    decreases |ps|
  {
    if |ps| > 0 {
      AllAligned(ps[..|ps| - 1]);
    }
  }

  /** The publications' contributions, one publication more. */
  lemma AllStep(ps: seq<Publication>, i: nat)
    requires i < |ps|
    ensures AllChunks(ps[..i + 1]) == AllChunks(ps[..i]) + ps[i].chunks
    ensures AllIds(ps[..i + 1]) == AllIds(ps[..i]) + ChunkIds(ps[i])
    ensures AllMetadatas(ps[..i + 1]) == AllMetadatas(ps[..i]) + TitleMetadatas(ps[i])
  {
    assert ps[..i + 1][..i] == ps[..i];
  }

  /**
   * `insert_publications`: one `add` per publication, in order.  The
   * collection gains every chunk, each under its "{id}-{j}" id and with its
   * title record.
   */
  method InsertPublications(c: Collection, ps: seq<Publication>)
    requires c.Valid()
    modifies c
    ensures c.Valid()
    ensures c.documents == old(c.documents) + AllChunks(ps)
    ensures c.ids == old(c.ids) + AllIds(ps)
    ensures c.metadatas == old(c.metadatas) + AllMetadatas(ps)
  {
    for i := 0 to |ps|
      invariant c.Valid()
      invariant c.documents == old(c.documents) + AllChunks(ps[..i])
      invariant c.ids == old(c.ids) + AllIds(ps[..i])
      invariant c.metadatas == old(c.metadatas) + AllMetadatas(ps[..i])
    {
      var p := ps[i];
      c.Add(p.chunks, ChunkIds(p), TitleMetadatas(p));
      AllStep(ps, i);
    }
    assert ps[..|ps|] == ps;
  }

  /** The ids of one publication's chunks are pairwise distinct. */
  lemma ChunkIdsDistinct(p: Publication, j: nat, k: nat)
    requires j < |p.chunks| && k < |p.chunks| && j != k
    ensures ChunkIds(p)[j] != ChunkIds(p)[k]
  {
    PrefixedNumeralsDistinct(p.id + "-", j, k);
    assert ChunkIds(p)[j] == (p.id + "-") + NatToString(j);
    assert ChunkIds(p)[k] == (p.id + "-") + NatToString(k);
  }
}
