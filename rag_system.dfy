/** `RAGSystem` of lib/ai/rag-system.ts: ingestion writes one chunk record per
    chunk and pushes the non-empty embeddings to the vector index in one batch;
    search hydrates the index's neighbours from the chunk store and keeps those of
    the caller's company. The embedding model, the nearest-neighbour search and
    `splitIntoChunks` are function parameters; Firestore and the index's upsert
    side are the fields of `Backend`. */
module RagSystem {
  import opened Wrappers
  import opened TextUtil

  type Embedding = seq<real>

  /** A `document_chunks` record; `metadata` is the caller's metadata with
      `section` set. Timestamps are not modelled. */
  datatype ChunkRecord = ChunkRecord(id: string, documentId: string, companyId: string, content: string,
                                     metadata: map<string, string>)

  /** An entry of the batch handed to `upsertChunks`. */
  datatype UpsertItem = UpsertItem(id: string, embedding: Embedding)

  /** The fields `processDocument` sets on a `documents` record. */
  datatype RagDoc = RagDoc(ragProcessed: bool, chunkCount: nat)

  /** A neighbour reported by the index: `datapoint.datapointId` and `distance`. */
  datatype Neighbor = Neighbor(datapointId: string, distance: real)

  datatype SearchResult = SearchResult(chunk: ChunkRecord, score: real)

  /** `generateEmbedding`, which may throw. */
  type Embedder = string -> Result<Embedding>

  /** `vectorSearchService.findNearestNeighbors(embedding, limit, companyId)`,
      which may throw. */
  type NearestFn = (Embedding, int, string) -> Result<seq<Neighbor>>

  // ---------------------------------------------------------------------------
  // Chunk ids and records

  /** `${documentId}_chunk_${i}`. */
  function ChunkId(documentId: string, i: nat): string {
    documentId + "_chunk_" + NatToString(i)
  }

  /** Within one document, distinct chunk indices give distinct ids. */
  lemma {:induction false} ChunkIdInjective(documentId: string, i: nat, j: nat)
    requires ChunkId(documentId, i) == ChunkId(documentId, j)
    ensures i == j
  {
    PrefixCancel(documentId + "_chunk_", NatToString(i), NatToString(j));
    NatToStringInjective(i, j);
  }

  /** `Part ${i + 1}`. */
  function Section(i: nat): string {
    "Part " + NatToString(i + 1)
  }

  /** The record `processDocument` writes for chunk `i`: `{ ...metadata, section }`
      lets `section` override a caller key of that name. */
  function Record(documentId: string, companyId: string, texts: seq<string>, metadata: map<string, string>, i: nat): ChunkRecord
    requires i < |texts|
  {
    ChunkRecord(ChunkId(documentId, i), documentId, companyId, texts[i], metadata["section" := Section(i)])
  }

  /** The chunk store after the records of chunks `0 .. m - 1` are written. */
  function Written(store: map<string, ChunkRecord>, documentId: string, companyId: string, texts: seq<string>,
                   metadata: map<string, string>, m: nat): map<string, ChunkRecord>
    requires m <= |texts|
  {
    if m == 0 then store
    else Written(store, documentId, companyId, texts, metadata, m - 1)
           [ChunkId(documentId, m - 1) := Record(documentId, companyId, texts, metadata, m - 1)]
  }

  /** Chunk `i` is stored under its id with its record, once all of `0 .. m - 1`
      are written, whatever was there before. */
  lemma {:induction false} WrittenHolds(store: map<string, ChunkRecord>, documentId: string, companyId: string,
                                        texts: seq<string>, metadata: map<string, string>, m: nat, i: nat)
    requires i < m <= |texts|
    ensures var w := Written(store, documentId, companyId, texts, metadata, m);
      ChunkId(documentId, i) in w && w[ChunkId(documentId, i)] == Record(documentId, companyId, texts, metadata, i)
    decreases m
  {
    if i < m - 1 {
      WrittenHolds(store, documentId, companyId, texts, metadata, m - 1, i);
      if ChunkId(documentId, m - 1) == ChunkId(documentId, i) {
        ChunkIdInjective(documentId, m - 1, i);
      }
    }
  }

  /** Keys that are not the id of a written chunk keep their old value, and the
      written ids are the only keys added. */
  lemma {:induction false} WrittenElsewhere(store: map<string, ChunkRecord>, documentId: string, companyId: string,
                                            texts: seq<string>, metadata: map<string, string>, m: nat, k: string)
    requires m <= |texts|
    requires forall i :: 0 <= i < m ==> ChunkId(documentId, i) != k
    ensures var w := Written(store, documentId, companyId, texts, metadata, m);
      (k in w <==> k in store) && (k in store ==> w[k] == store[k])
    decreases m
  {
    if m > 0 {
      WrittenElsewhere(store, documentId, companyId, texts, metadata, m - 1, k);
    }
  }

  /** Starting from an empty store, `m` chunks give exactly `m` records. */
  lemma {:induction false} WrittenCount(documentId: string, companyId: string, texts: seq<string>,
                                        metadata: map<string, string>, m: nat)
    requires m <= |texts|
    ensures |Written(map[], documentId, companyId, texts, metadata, m)| == m
    decreases m
  {
    if m > 0 {
      var w := Written(map[], documentId, companyId, texts, metadata, m - 1);
      WrittenCount(documentId, companyId, texts, metadata, m - 1);
      if ChunkId(documentId, m - 1) in w {
        WrittenKeys(documentId, companyId, texts, metadata, m - 1, ChunkId(documentId, m - 1));
        var i :| 0 <= i < m - 1 && ChunkId(documentId, i) == ChunkId(documentId, m - 1);
        ChunkIdInjective(documentId, i, m - 1);
      }
    }
  }

  lemma {:induction false} WrittenKeys(documentId: string, companyId: string, texts: seq<string>,
                                       metadata: map<string, string>, m: nat, k: string)
    requires m <= |texts| && k in Written(map[], documentId, companyId, texts, metadata, m)
    ensures exists i :: 0 <= i < m && ChunkId(documentId, i) == k
    decreases m
  {
    if m > 0 && k != ChunkId(documentId, m - 1) {
      WrittenKeys(documentId, companyId, texts, metadata, m - 1, k);
    }
  }

  // ---------------------------------------------------------------------------
  // The upsert batch

  /** Whether the embeddings of chunks `0 .. m - 1` were all generated. */
  predicate EmbedsOk(texts: seq<string>, embed: Embedder, m: nat)
    requires m <= |texts|
  {
    forall i :: 0 <= i < m ==> embed(texts[i]).Ok?
  }

  /** How many chunks the loop gets through: up to the first embedding failure. */
  function Reached(texts: seq<string>, embed: Embedder, i: nat): (m: nat)
    requires i <= |texts|
    ensures i <= m <= |texts|
    decreases |texts| - i
  {
    if i == |texts| || embed(texts[i]).Err? then i else Reached(texts, embed, i + 1)
  }

  /** `chunksToUpsert` after `m` iterations. */
  function Batch(documentId: string, texts: seq<string>, embed: Embedder, m: nat): seq<UpsertItem>
    requires m <= |texts| && EmbedsOk(texts, embed, m)
  {
    if m == 0 then []
    else
      var e := embed(texts[m - 1]).value;
      Batch(documentId, texts, embed, m - 1) + (if |e| > 0 then [UpsertItem(ChunkId(documentId, m - 1), e)] else [])
  }

  /** The loop stops exactly at the first failed embedding. */
  lemma {:induction false} ReachedIsFirstFailure(texts: seq<string>, embed: Embedder, i: nat)
    requires i <= |texts| && EmbedsOk(texts, embed, i)
    ensures var m := Reached(texts, embed, i);
      EmbedsOk(texts, embed, m) && (m < |texts| ==> embed(texts[m]).Err?)
    decreases |texts| - i
  {
    if i < |texts| && embed(texts[i]).Ok? {
      ReachedIsFirstFailure(texts, embed, i + 1);
    }
  }

  /** The batch holds, in chunk order, one item per chunk whose embedding is
      non-empty, and nothing else: `idx` lists those chunk indices. */
  lemma {:induction false} BatchIndices(documentId: string, texts: seq<string>, embed: Embedder, m: nat)
      returns (idx: seq<nat>)
    requires m <= |texts| && EmbedsOk(texts, embed, m)
    ensures var b := Batch(documentId, texts, embed, m);
      |idx| == |b|
      && (forall k :: 0 <= k < |idx| ==>
            idx[k] < m && |embed(texts[idx[k]]).value| > 0
            && b[k] == UpsertItem(ChunkId(documentId, idx[k]), embed(texts[idx[k]]).value))
      && (forall k, l :: 0 <= k < l < |idx| ==> idx[k] < idx[l])
      && (forall i :: 0 <= i < m && |embed(texts[i]).value| > 0 ==> i in idx)
    decreases m
  {
    if m == 0 {
      idx := [];
    } else {
      var idx0 := BatchIndices(documentId, texts, embed, m - 1);
      if |embed(texts[m - 1]).value| > 0 {
        idx := idx0 + [m - 1];
      } else {
        idx := idx0;
      }
    }
  }

  /** `search`'s hydration: each neighbour is looked up in `chunksById`, and the
      results whose chunk is missing or belongs to another company are dropped. */
  function Hydrate(neighbors: seq<Neighbor>, byId: map<string, ChunkRecord>, companyId: string): seq<SearchResult>
    decreases |neighbors|
  {
    if neighbors == [] then []
    else
      var n := neighbors[0];
      var rest := Hydrate(neighbors[1..], byId, companyId);
      if n.datapointId in byId && byId[n.datapointId].companyId == companyId
      then [SearchResult(byId[n.datapointId], n.distance)] + rest
      else rest
  }

  predicate Hydrates(n: Neighbor, byId: map<string, ChunkRecord>, companyId: string) {
    n.datapointId in byId && byId[n.datapointId].companyId == companyId
  }

  /** `r` follows the neighbours' order: one result per position in `idx`,
      which lists, in increasing order, exactly the neighbours that hydrate to a
      chunk of the caller's company, each result carrying that chunk and the
      neighbour's distance. */
  ghost predicate HydratedAt(neighbors: seq<Neighbor>, byId: map<string, ChunkRecord>, companyId: string,
                             r: seq<SearchResult>, idx: seq<nat>) {
    |idx| == |r| && |r| <= |neighbors|
    && (forall k :: 0 <= k < |idx| ==>
          idx[k] < |neighbors| && Hydrates(neighbors[idx[k]], byId, companyId)
          && r[k] == SearchResult(byId[neighbors[idx[k]].datapointId], neighbors[idx[k]].distance))
    && (forall k, l :: 0 <= k < l < |idx| ==> idx[k] < idx[l])
    && (forall i :: 0 <= i < |neighbors| && Hydrates(neighbors[i], byId, companyId) ==> i in idx)
  }

  /** The kept positions among the neighbours after the first, counted among
      all the neighbours. */
  lemma {:induction false} HydrateShift(neighbors: seq<Neighbor>, byId: map<string, ChunkRecord>, companyId: string,
                                        rest: seq<SearchResult>, tail: seq<nat>) returns (shifted: seq<nat>)
    requires neighbors != [] && HydratedAt(neighbors[1..], byId, companyId, rest, tail)
    ensures |shifted| == |rest| < |neighbors|
    ensures forall k :: 0 <= k < |shifted| ==>
      1 <= shifted[k] < |neighbors| && Hydrates(neighbors[shifted[k]], byId, companyId)
      && rest[k] == SearchResult(byId[neighbors[shifted[k]].datapointId], neighbors[shifted[k]].distance)
    ensures forall k, l :: 0 <= k < l < |shifted| ==> shifted[k] < shifted[l]
    ensures forall i :: 1 <= i < |neighbors| && Hydrates(neighbors[i], byId, companyId) ==> i in shifted
  {
    shifted := seq(|tail|, k requires 0 <= k < |tail| => tail[k] + 1);
    forall k | 0 <= k < |tail| ensures neighbors[shifted[k]] == neighbors[1..][tail[k]] {
    }
    forall i | 1 <= i < |neighbors| && Hydrates(neighbors[i], byId, companyId) ensures i in shifted {
      assert neighbors[1..][i - 1] == neighbors[i];
      var k :| 0 <= k < |tail| && tail[k] == i - 1;
      assert shifted[k] == i;
    }
  }

  /** A first neighbour that hydrates comes first, before the shifted rest. */
  lemma {:induction false} HydrateKeep(neighbors: seq<Neighbor>, byId: map<string, ChunkRecord>, companyId: string,
                                       rest: seq<SearchResult>, tail: seq<nat>) returns (idx: seq<nat>)
    requires neighbors != [] && HydratedAt(neighbors[1..], byId, companyId, rest, tail)
    requires Hydrates(neighbors[0], byId, companyId)
    ensures HydratedAt(neighbors, byId, companyId,
                       [SearchResult(byId[neighbors[0].datapointId], neighbors[0].distance)] + rest, idx)
  {
    var shifted := HydrateShift(neighbors, byId, companyId, rest, tail);
    idx := [0] + shifted;
    var r := [SearchResult(byId[neighbors[0].datapointId], neighbors[0].distance)] + rest;
    forall k | 1 <= k < |idx| ensures idx[k] == shifted[k - 1] && r[k] == rest[k - 1] {
    }
  }

  /** A first neighbour that does not hydrate is dropped. */
  lemma {:induction false} HydrateSkip(neighbors: seq<Neighbor>, byId: map<string, ChunkRecord>, companyId: string,
                                       rest: seq<SearchResult>, tail: seq<nat>) returns (idx: seq<nat>)
    requires neighbors != [] && HydratedAt(neighbors[1..], byId, companyId, rest, tail)
    requires !Hydrates(neighbors[0], byId, companyId)
    ensures HydratedAt(neighbors, byId, companyId, rest, idx)
  {
    idx := HydrateShift(neighbors, byId, companyId, rest, tail);
  }

  /** The results follow the neighbours' order, one per neighbour that hydrates to
      a chunk of the caller's company (`HydratedAt`). So every result belongs to
      the company and there are never more results than neighbours. */
  lemma {:induction false} HydrateIndices(neighbors: seq<Neighbor>, byId: map<string, ChunkRecord>, companyId: string)
      returns (idx: seq<nat>)
    ensures HydratedAt(neighbors, byId, companyId, Hydrate(neighbors, byId, companyId), idx)
    ensures |Hydrate(neighbors, byId, companyId)| <= |neighbors|
    ensures forall k :: 0 <= k < |Hydrate(neighbors, byId, companyId)| ==>
      Hydrate(neighbors, byId, companyId)[k].chunk.companyId == companyId
    decreases |neighbors|
  {
    if neighbors == [] {
      idx := [];
    } else {
      var tail := HydrateIndices(neighbors[1..], byId, companyId);
      if Hydrates(neighbors[0], byId, companyId) {
        idx := HydrateKeep(neighbors, byId, companyId, Hydrate(neighbors[1..], byId, companyId), tail);
      } else {
        idx := HydrateSkip(neighbors, byId, companyId, Hydrate(neighbors[1..], byId, companyId), tail);
      }
    }
  }

  // ---------------------------------------------------------------------------
  // The stores and the two operations

  class Backend {
    /** The `document_chunks` collection, by document id. */
    var chunks: map<string, ChunkRecord>
    /** The `documents` collection, as far as `processDocument` updates it. */
    var documents: map<string, RagDoc>
    /** Every batch handed to `upsertChunks`, in call order. */
    var upserts: seq<seq<UpsertItem>>
    /** Whether `upsertChunks` succeeds; when it does not, it throws. */
    var indexUp: bool

    constructor(chunks: map<string, ChunkRecord>, documents: map<string, RagDoc>, indexUp: bool)
      ensures this.chunks == chunks && this.documents == documents && this.upserts == [] && this.indexUp == indexUp
    {
      this.chunks := chunks;
      this.documents := documents;
      this.upserts := [];
      this.indexUp := indexUp;
    }

    /** `processDocument`: write every chunk's record, collect the non-empty
        embeddings, upsert them in a single call if there are any, then mark the
        document processed with its chunk count. The first error is returned and
        what was written before it stays written. */
    method ProcessDocument(documentId: string, companyId: string, content: string, metadata: map<string, string>,
                           split: string -> seq<string>, embed: Embedder) returns (r: Result<()>)
      modifies this
      ensures var texts := split(content);
        var m := Reached(texts, embed, 0);
        EmbedsOk(texts, embed, m)
        && chunks == Written(old(chunks), documentId, companyId, texts, metadata, m)
        && indexUp == old(indexUp)
        && (m < |texts| ==> embed(texts[m]).Err? && r == Err(embed(texts[m]).message)
                            && upserts == old(upserts) && documents == old(documents))
        && (m == |texts| ==>
              var b := Batch(documentId, texts, embed, m);
              if b != [] && !indexUp then
                r.Err? && upserts == old(upserts) && documents == old(documents)
              else
                upserts == old(upserts) + (if b == [] then [] else [b])
                && (r.Ok? <==> documentId in old(documents))
                && documents == (if documentId in old(documents)
                                 then old(documents)[documentId := RagDoc(true, |texts|)]
                                 else old(documents)))
    {
      var texts := split(content);
      var batch, failure := WriteChunks(documentId, companyId, texts, metadata, embed);
      if failure.Some? {
        return Err(failure.value);
      }
      if |batch| > 0 {
        if !indexUp {
          return Err("upsertChunks failed");
        }
        upserts := upserts + [batch];
      }
      if documentId !in documents {
        return Err("No document to update: " + documentId);
      }
      documents := documents[documentId := RagDoc(true, |texts|)];
      r := Ok(());
    }

    /** The chunk loop of `processDocument`: for each chunk in order, generate its
        embedding (stopping at the first failure), write its record, and collect
        the embedding into the batch when it is non-empty. */
    method WriteChunks(documentId: string, companyId: string, texts: seq<string>, metadata: map<string, string>,
                       embed: Embedder) returns (batch: seq<UpsertItem>, failure: Option<string>)
      modifies this
      ensures var m := Reached(texts, embed, 0);
        EmbedsOk(texts, embed, m)
        && chunks == Written(old(chunks), documentId, companyId, texts, metadata, m)
        && upserts == old(upserts) && documents == old(documents) && indexUp == old(indexUp)
        && (failure.Some? <==> m < |texts|)
        && (m < |texts| ==> embed(texts[m]).Err? && failure == Some(embed(texts[m]).message))
        && (m == |texts| ==> batch == Batch(documentId, texts, embed, m))
    {
      ghost var n := Reached(texts, embed, 0);
      ReachedIsFirstFailure(texts, embed, 0);
      batch := [];
      var i := 0;
      while i < |texts|
        invariant i <= n && EmbedsOk(texts, embed, i)
        invariant chunks == Written(old(chunks), documentId, companyId, texts, metadata, i)
        invariant batch == Batch(documentId, texts, embed, i)
        invariant upserts == old(upserts) && documents == old(documents) && indexUp == old(indexUp)
      {
        var e := embed(texts[i]);
        if e.Err? {
          return batch, Some(e.message);
        }
        var id := ChunkId(documentId, i);
        chunks := chunks[id := ChunkRecord(id, documentId, companyId, texts[i], metadata["section" := Section(i)])];
        if |e.value| > 0 {
          batch := batch + [UpsertItem(id, e.value)];
        }
        i := i + 1;
      }
      failure := None;
    }

    /** `vectorSearch` with the chunk query: the neighbours' ids are looked up
        among this company's chunks, then hydrated and filtered. */
    method VectorSearch(queryEmbedding: Embedding, companyId: string, limit: int, nearest: NearestFn)
        returns (r: Result<seq<SearchResult>>)
      ensures var ns := nearest(queryEmbedding, limit, companyId);
        if ns.Err? then r == Err(ns.message)
        else r == Ok(Hydrate(ns.value, CompanyChunks(chunks, companyId, Ids(ns.value)), companyId))
    {
      var found := nearest(queryEmbedding, limit, companyId);
      if found.Err? {
        return Err(found.message);
      }
      var neighbors := found.value;
      if |neighbors| == 0 {
        return Ok([]);
      }
      var chunkIds := Ids(neighbors);
      var chunksById := map k | k in chunks && chunks[k].companyId == companyId && k in chunkIds :: chunks[k];
      r := Ok(Hydrate(neighbors, chunksById, companyId));
    }

    /** `search`: embed the query and run the vector search; any failure gives an
        empty list instead of an error. */
    method Search(query: string, companyId: string, limit: int, embed: Embedder, nearest: NearestFn)
        returns (results: seq<SearchResult>)
      ensures var e := embed(query);
        if e.Err? then results == []
        else
          var ns := nearest(e.value, limit, companyId);
          if ns.Err? then results == []
          else results == Hydrate(ns.value, CompanyChunks(chunks, companyId, Ids(ns.value)), companyId)
    {
      var e := embed(query);
      if e.Err? {
        return [];
      }
      var found := VectorSearch(e.value, companyId, limit, nearest);
      results := if found.Ok? then found.value else [];
    }
  }

  /** `neighbors.map(n => n.datapoint.datapointId)`. */
  function Ids(neighbors: seq<Neighbor>): (r: seq<string>)
    ensures |r| == |neighbors| && forall i :: 0 <= i < |r| ==> r[i] == neighbors[i].datapointId
  {
    seq(|neighbors|, i requires 0 <= i < |neighbors| => neighbors[i].datapointId)
  }

  /** The chunk query `where('companyId', '==', companyId).where('id', 'in', ids)`,
      keyed by document id. */
  function CompanyChunks(chunks: map<string, ChunkRecord>, companyId: string, ids: seq<string>): (r: map<string, ChunkRecord>)
    ensures forall k :: k in r <==> k in chunks && chunks[k].companyId == companyId && k in ids
    ensures forall k :: k in r ==> r[k] == chunks[k]
  {
    map k | k in chunks && chunks[k].companyId == companyId && k in ids :: chunks[k]
  }

  // ---------------------------------------------------------------------------
  // The examples of the test suite

  /** Ingesting "Hello world" as a single chunk whose embedding is [0.1, 0.2]
      stores one record, under `doc1_chunk_0`, and upserts exactly
      `[{ id: 'doc1_chunk_0', embedding: [0.1, 0.2] }]`. */
  lemma {:induction false} HelloWorldIngest(texts: seq<string>, embed: Embedder, metadata: map<string, string>)
    requires texts == ["Hello world"] && embed("Hello world") == Ok([0.1, 0.2])
    ensures EmbedsOk(texts, embed, 1)
    ensures Written(map[], "doc1", "comp1", texts, metadata, 1).Keys == {"doc1_chunk_0"}
    ensures Batch("doc1", texts, embed, 1) == [UpsertItem("doc1_chunk_0", [0.1, 0.2])]
  {
    assert ChunkId("doc1", 0) == "doc1_chunk_0";
  }

  /** Searching with one neighbour `doc1_chunk_0` whose chunk belongs to the
      company gives that one chunk, scored by the neighbour's distance. */
  lemma {:induction false} HelloWorldSearch(rec: ChunkRecord, distance: real)
    requires rec.companyId == "comp1" && rec.content == "Hello world"
    ensures var r := Hydrate([Neighbor("doc1_chunk_0", distance)], map["doc1_chunk_0" := rec], "comp1");
      |r| == 1 && r[0].chunk.content == "Hello world" && r[0].score == distance
  {
  }
}
