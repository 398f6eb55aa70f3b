/** lib/documents/processor.ts: a stored document is downloaded, its text
    extracted and chunked, the chunks handed to the vector index, and the
    document's status moved through `processing` to `processed`, or to `failed`
    with the error message. `processCompanyDocuments` runs this over a company's
    pending documents and reports one result per document.

    The download, the PDF renderer, the PNG encoder, the text decoder and the
    index's `upsertDocumentChunks` are the function fields of `Env`. The
    `documents` collection, the status updates, the notifications and the
    successful upserts are the fields of `DocumentStore`. */
module Processor {
  import opened Wrappers
  import opened TextUtil
  import Chunker
  import opened PdfParser

  /** The `status` field of a document. `OtherStatus` stands for any string other
      than the five named ones, which are always read as their own constructors;
      a stored `OtherStatus("pending")` would not be the document the source's
      `status in [...]` query selects. */
  datatype Status = Pending | Uploaded | Processing | Processed | Failed | OtherStatus(name: string)

  /** A `documents` record, as far as processing reads or writes it. An empty
      `fileUrl`, `category` or `createdBy` stands for a missing (falsy) one, and
      missing `tags` for the empty list. Timestamps are not modelled. */
  datatype Document = Document(companyId: string, title: string, fileUrl: string, fileType: string,
                               category: string, tags: seq<string>, createdBy: string,
                               status: Status, content: string, chunksCount: Option<nat>, error: Option<string>)

  /** The outcome of `fetch`: a thrown network error, or a response. */
  datatype Fetched = FetchError(message: string) | Response(ok: bool, statusText: string, body: seq<byte>)

  /** The metadata of one chunk handed to the vector index. */
  datatype ChunkMeta = ChunkMeta(documentId: string, companyId: string, documentTitle: string, chunkIndex: nat,
                                 pageNumber: nat, category: Option<string>, tags: seq<string>)

  datatype VectorChunk = VectorChunk(id: string, text: string, metadata: ChunkMeta)

  /** What `upsertDocumentChunks` reports. */
  datatype UpsertReply = UpsertReply(status: string, vectorsUpserted: nat)

  /** The services `processDocument` calls; each may fail, except the encoder and
      the decoder. */
  datatype Env = Env(fetch: string -> Fetched,
                     render: seq<byte> -> Result<seq<PageSource>>,
                     encode: Encoder,
                     decode: seq<byte> -> string,
                     upsert: (string, seq<VectorChunk>) -> Result<UpsertReply>)

  datatype ProcessResult = ProcessResult(success: bool, chunksProcessed: nat, vectorsStored: nat)

  /** `sendDocumentProcessedNotification`'s argument. */
  datatype Notice = Notice(userId: string, documentName: string, status: Status, errorMessage: Option<string>)

  /** One `update` of a document's `status`. */
  datatype StatusWrite = StatusWrite(documentId: string, status: Status)

  /** A successful `upsertDocumentChunks` call. */
  datatype UpsertCall = UpsertCall(companyId: string, chunks: seq<VectorChunk>)

  /** An entry of `processCompanyDocuments`' result list. */
  datatype BatchEntry = Succeeded(documentId: string, result: ProcessResult) | FailedEntry(documentId: string, error: string)

  /** The extracted text and its chunks. */
  datatype Extraction = Extraction(text: string, pieces: seq<Piece>)

  const NotFound: string := "Document not found"
  const NoFileUrl: string := "Document has no file URL"
  const NoText: string := "No text content extracted from document"
  /** The message of a notification call that throws. */
  const NotifyFailed: string := "Notification failed"

  /** Both file types are chunked with at most 1000 characters and a 200-character
      overlap. */
  const ChunkOptions: Chunker.Options := Chunker.Options(1000, 200)

  function Lookup(docs: map<string, Document>, id: string): Option<Document> {
    if id in docs then Some(docs[id]) else None
  }

  // ---------------------------------------------------------------------------
  // Extraction

  /** Plain-text chunks, numbered from page 1 with no images. */
  function PlainPieces(texts: seq<string>): (r: seq<Piece>)
    ensures |r| == |texts|
    ensures forall i :: 0 <= i < |r| ==> r[i] == Piece(texts[i], i + 1, [])
  {
    seq(|texts|, i requires 0 <= i < |texts| => Piece(texts[i], i + 1, []))
  }

  /** Text that is empty or only white space is rejected. */
  function Checked(text: string, pieces: seq<Piece>): Result<Extraction> {
    if Trim(text) == [] then Err(NoText) else Ok(Extraction(text, pieces))
  }

  /** Download, dispatch on the file type, extract and chunk. */
  function Extract(doc: Document, env: Env): Result<Extraction> {
    if doc.fileUrl == [] then Err(NoFileUrl)
    else
      match env.fetch(doc.fileUrl)
      case FetchError(m) => Err(m)
      case Response(ok, statusText, body) =>
        if !ok then Err("Failed to download file: " + statusText)
        else if doc.fileType == "application/pdf" then
          match env.render(body)
          case Err(m) => Err(m)
          case Ok(pages) => Checked(DocText(pages), ChunkPdf(ParsedPages(pages, env.encode), ChunkOptions))
        else if doc.fileType == "text/plain" then
          var text := env.decode(body);
          Checked(text, PlainPieces(Chunker.Chunks(text, ChunkOptions)))
        else Err("Unsupported file type: " + doc.fileType)
  }

  /** The extraction steps of `processDocument`, running the page loop and the
      chunker. */
  method ReadContent(doc: Document, env: Env) returns (x: Result<Extraction>)
    ensures x == Extract(doc, env)
  {
    if doc.fileUrl == [] {
      return Err(NoFileUrl);
    }
    var response := env.fetch(doc.fileUrl);
    if response.FetchError? {
      return Err(response.message);
    }
    if !response.ok {
      return Err("Failed to download file: " + response.statusText);
    }
    var text: string;
    var pieces: seq<Piece>;
    if doc.fileType == "application/pdf" {
      var rendered := env.render(response.body);
      if rendered.Err? {
        return Err(rendered.message);
      }
      var parsed := ParsePdf(rendered.value, env.encode);
      text := parsed.text;
      pieces := ChunkPdf(parsed.pages, ChunkOptions);
    } else if doc.fileType == "text/plain" {
      text := env.decode(response.body);
      var chunks := Chunker.ChunkText(text, ChunkOptions);
      pieces := PlainPieces(chunks);
    } else {
      return Err("Unsupported file type: " + doc.fileType);
    }
    if Trim(text) == [] {
      return Err(NoText);
    }
    x := Ok(Extraction(text, pieces));
  }

  /** `${documentId}-chunk-${i}`. */
  function ChunkId(documentId: string, i: nat): string {
    documentId + "-chunk-" + NatToString(i)
  }

  lemma {:induction false} ChunkIdInjective(documentId: string, i: nat, j: nat)
    requires ChunkId(documentId, i) == ChunkId(documentId, j)
    ensures i == j
  {
    PrefixCancel(documentId + "-chunk-", NatToString(i), NatToString(j));
    NatToStringInjective(i, j);
  }

  /** The chunks handed to the index: chunk `i` under its id, with the document's
      company, title, category (none when empty) and tags. */
  function VectorChunks(documentId: string, doc: Document, pieces: seq<Piece>): (r: seq<VectorChunk>)
    ensures |r| == |pieces|
    ensures forall i :: 0 <= i < |r| ==>
      r[i] == VectorChunk(ChunkId(documentId, i), pieces[i].text,
                          ChunkMeta(documentId, doc.companyId, doc.title, i, pieces[i].pageNumber,
                                    if doc.category == [] then None else Some(doc.category), doc.tags))
  {
    seq(|pieces|, i requires 0 <= i < |pieces| =>
      VectorChunk(ChunkId(documentId, i), pieces[i].text,
                  ChunkMeta(documentId, doc.companyId, doc.title, i, pieces[i].pageNumber,
                            if doc.category == [] then None else Some(doc.category), doc.tags)))
  }

  /** No two chunks of a document share an id, and each chunk's metadata carries
      its own index. */
  lemma {:induction false} VectorChunkIdsDistinct(documentId: string, doc: Document, pieces: seq<Piece>, i: nat, j: nat)
    requires i < j < |pieces|
    ensures var r := VectorChunks(documentId, doc, pieces);
      r[i].id != r[j].id && r[i].metadata.chunkIndex == i && r[j].metadata.chunkIndex == j
  {
    if ChunkId(documentId, i) == ChunkId(documentId, j) {
      ChunkIdInjective(documentId, i, j);
    }
  }

  // ---------------------------------------------------------------------------
  // How far one run of `processDocument` gets

  /** Where the `try` block stops: the document is missing; extraction fails; the
      upsert fails; the success notification throws; or everything succeeds. */
  datatype Trace =
    | Missing
    | ExtractFailed(doc: Document, message: string)
    | UpsertFailed(doc: Document, x: Extraction, message: string)
    | NotifyThrew(doc: Document, x: Extraction, reply: UpsertReply)
    | Done(doc: Document, x: Extraction, reply: UpsertReply)

  function TraceOf(od: Option<Document>, id: string, env: Env, notifierUp: bool): Trace {
    match od
    case None => Missing
    case Some(doc) =>
      match Extract(doc, env)
      case Err(m) => ExtractFailed(doc, m)
      case Ok(x) => TraceFrom(doc, x, id, env, notifierUp)
  }

  /** The trace once the text is extracted. */
  function TraceFrom(doc: Document, x: Extraction, id: string, env: Env, notifierUp: bool): Trace {
    match env.upsert(doc.companyId, VectorChunks(id, doc, x.pieces))
    case Err(m) => UpsertFailed(doc, x, m)
    case Ok(reply) =>
      if doc.createdBy != [] && !notifierUp then NotifyThrew(doc, x, reply) else Done(doc, x, reply)
  }

  /** What `processDocument` returns or throws. */
  function Outcome(t: Trace): Result<ProcessResult> {
    match t
    case Missing => Err(NotFound)
    case ExtractFailed(_, m) => Err(m)
    case UpsertFailed(_, _, m) => Err(m)
    case NotifyThrew(_, _, _) => Err(NotifyFailed)
    case Done(_, x, reply) => Ok(ProcessResult(reply.status == "success", |x.pieces|, reply.vectorsUpserted))
  }

  /** The stored record afterwards, when the document exists. */
  function Settled(t: Trace): Document
    requires !t.Missing?
  {
    match t
    case ExtractFailed(doc, m) => doc.(status := Failed, error := Some(m))
    case UpsertFailed(doc, x, m) => doc.(content := x.text, status := Failed, error := Some(m))
    case NotifyThrew(doc, x, _) =>
      doc.(content := x.text, chunksCount := Some(|x.pieces|), status := Failed, error := Some(NotifyFailed))
    case Done(doc, x, _) => doc.(content := x.text, chunksCount := Some(|x.pieces|), status := Processed)
  }

  /** The status updates issued, in order. The failure update of a missing
      document throws and is swallowed, so it writes nothing. */
  function Trail(id: string, t: Trace): seq<StatusWrite> {
    match t
    case Missing => []
    case ExtractFailed(_, _) => [StatusWrite(id, Failed)]
    case UpsertFailed(_, _, _) => [StatusWrite(id, Processing), StatusWrite(id, Failed)]
    case NotifyThrew(_, _, _) => [StatusWrite(id, Processing), StatusWrite(id, Processed), StatusWrite(id, Failed)]
    case Done(_, _, _) => [StatusWrite(id, Processing), StatusWrite(id, Processed)]
  }

  /** The notifications delivered: success or failure to the document's creator,
      none when there is no creator or the notifier throws. */
  function Notices(t: Trace, notifierUp: bool): seq<Notice> {
    match t
    case Missing => []
    case ExtractFailed(doc, m) =>
      if doc.createdBy != [] && notifierUp then [Notice(doc.createdBy, doc.title, Failed, Some(m))] else []
    case UpsertFailed(doc, _, m) =>
      if doc.createdBy != [] && notifierUp then [Notice(doc.createdBy, doc.title, Failed, Some(m))] else []
    case NotifyThrew(_, _, _) => []
    case Done(doc, _, _) => if doc.createdBy != [] then [Notice(doc.createdBy, doc.title, Processed, None)] else []
  }

  /** The upserts that went through. */
  function Upserts(id: string, t: Trace): seq<UpsertCall> {
    match t
    case NotifyThrew(doc, x, _) => [UpsertCall(doc.companyId, VectorChunks(id, doc, x.pieces))]
    case Done(doc, x, _) => [UpsertCall(doc.companyId, VectorChunks(id, doc, x.pieces))]
    case _ => []
  }

  /** `status in ['pending', 'uploaded', 'failed']`. */
  predicate Reprocessable(s: Status) {
    s == Pending || s == Uploaded || s == Failed
  }

  /** The ids the company query returns, in the collection's order. */
  function Selected(docs: map<string, Document>, order: seq<string>, companyId: string): seq<string>
    decreases |order|
  {
    if order == [] then []
    else
      var rest := Selected(docs, order[1..], companyId);
      var id := order[0];
      if id in docs && docs[id].companyId == companyId && Reprocessable(docs[id].status) then [id] + rest else rest
  }

  function Entry(id: string, r: Result<ProcessResult>): BatchEntry {
    match r
    case Ok(res) => Succeeded(id, res)
    case Err(m) => FailedEntry(id, m)
  }

  /** The trace of each of `ids`, its document taken as stored in `docs`. */
  function Traces(docs: map<string, Document>, ids: seq<string>, env: Env, notifierUp: bool): (r: seq<Trace>)
    ensures |r| == |ids|
  {
    seq(|ids|, k requires 0 <= k < |ids| => TraceOf(Lookup(docs, ids[k]), ids[k], env, notifierUp))
  }

  /** The entries recorded for `ids`, given the trace of each. */
  function EntriesOf(ids: seq<string>, ts: seq<Trace>): (r: seq<BatchEntry>)
    requires |ts| == |ids|
    ensures |r| == |ids|
  {
    seq(|ids|, k requires 0 <= k < |ids| => Entry(ids[k], Outcome(ts[k])))
  }

  /** The entries for `ids`, each as processing the document stored under it
      gives. */
  function Expectations(docs: map<string, Document>, ids: seq<string>, env: Env, notifierUp: bool): (r: seq<BatchEntry>)
    ensures |r| == |ids|
  {
    EntriesOf(ids, Traces(docs, ids, env, notifierUp))
  }

  /** The entry `processCompanyDocuments` records for a document, given what is
      stored under its id when its turn comes. */
  function Expected(od: Option<Document>, id: string, env: Env, notifierUp: bool): BatchEntry {
    Entry(id, Outcome(TraceOf(od, id, env, notifierUp)))
  }

  /** Status updates, notifications and upserts, each in the order issued. */
  datatype Effects = Effects(writes: seq<StatusWrite>, notices: seq<Notice>, upserts: seq<UpsertCall>)

  /** `a`'s effects followed by `b`'s. */
  function Then(a: Effects, b: Effects): Effects {
    Effects(a.writes + b.writes, a.notices + b.notices, a.upserts + b.upserts)
  }

  /** What processing one document issues. */
  function StepEffects(id: string, t: Trace, notifierUp: bool): Effects {
    Effects(Trail(id, t), Notices(t, notifierUp), Upserts(id, t))
  }

  /** What processing each of `ids` issues, given the trace of each. */
  function StepsOf(ids: seq<string>, ts: seq<Trace>, notifierUp: bool): (r: seq<Effects>)
    requires |ts| == |ids|
    ensures |r| == |ids|
  {
    seq(|ids|, k requires 0 <= k < |ids| => StepEffects(ids[k], ts[k], notifierUp))
  }

  /** The effects of `steps`, one after the other. */
  function Concat(steps: seq<Effects>): Effects
    decreases |steps|
  {
    if steps == [] then Effects([], [], []) else Then(Concat(steps[..|steps| - 1]), steps[|steps| - 1])
  }

  /** What processing `ids` one after the other issues, each document taken as
      stored in `docs`. */
  function BatchEffects(docs: map<string, Document>, ids: seq<string>, env: Env, notifierUp: bool): Effects {
    Concat(StepsOf(ids, Traces(docs, ids, env, notifierUp), notifierUp))
  }

  /** The record each of `ids` ends with, processed from its stored record. */
  function Finals(docs: map<string, Document>, ids: seq<string>, env: Env, notifierUp: bool): (r: seq<Document>)
    requires forall k :: 0 <= k < |ids| ==> ids[k] in docs
    ensures |r| == |ids|
  {
    seq(|ids|, k requires 0 <= k < |ids| => Settled(TraceOf(Lookup(docs, ids[k]), ids[k], env, notifierUp)))
  }

  // ---------------------------------------------------------------------------
  // The store

  class DocumentStore {
    /** The `documents` collection. */
    var documents: map<string, Document>
    /** The order in which queries list the collection's ids. */
    var order: seq<string>
    /** Every status update, in order. */
    var statusWrites: seq<StatusWrite>
    /** Every notification delivered, in order. */
    var notices: seq<Notice>
    /** Every successful upsert, in order. */
    var upserts: seq<UpsertCall>
    /** Whether the notification service answers; when it does not, it throws. */
    var notifierUp: bool

    /** `order` lists each stored id exactly once. */
    ghost predicate Valid()
      reads this
    {
      (forall i, j :: 0 <= i < j < |order| ==> order[i] != order[j])
      && (forall id :: id in documents <==> id in order)
    }

    constructor(documents: map<string, Document>, order: seq<string>, notifierUp: bool)
      requires forall i, j :: 0 <= i < j < |order| ==> order[i] != order[j]
      requires forall id :: id in documents <==> id in order
      ensures Valid()
      ensures this.documents == documents && this.order == order && this.notifierUp == notifierUp
      ensures statusWrites == [] && notices == [] && upserts == []
    {
      this.documents := documents;
      this.order := order;
      this.notifierUp := notifierUp;
      statusWrites := [];
      notices := [];
      upserts := [];
    }

    /** `processDocument`: on success the document ends `processed` with its chunk
        count; on any error it ends `failed` with the message, the creator is told
        when possible, and the error is returned. */
    method ProcessDocument(id: string, env: Env) returns (r: Result<ProcessResult>)
      modifies this
      ensures var t := TraceOf(Lookup(old(documents), id), id, env, old(notifierUp));
        r == Outcome(t)
        && documents == (if t.Missing? then old(documents) else old(documents)[id := Settled(t)])
        && statusWrites == old(statusWrites) + Trail(id, t)
        && notices == old(notices) + Notices(t, old(notifierUp))
        && upserts == old(upserts) + Upserts(id, t)
        && order == old(order) && notifierUp == old(notifierUp)
    {
      if id !in documents {
        return Err(NotFound);
      }
      var doc := documents[id];
      var x := ReadContent(doc, env);
      if x.Err? {
        MarkFailed(id, doc, x.message);
        return Err(x.message);
      }
      r := Store(id, doc, x.value, env);
    }

    /** The rest of `processDocument` once the text is extracted: mark the document
        `processing` with its content, upsert its chunks, mark it `processed` with
        its chunk count and notify the creator; an error on the way is handled as
        by the `catch` block. */
    method Store(id: string, doc: Document, x: Extraction, env: Env) returns (r: Result<ProcessResult>)
      requires id in documents && documents[id] == doc
      modifies this
      ensures var t := TraceFrom(doc, x, id, env, old(notifierUp));
        r == Outcome(t)
        && documents == old(documents)[id := Settled(t)]
        && statusWrites == old(statusWrites) + Trail(id, t)
        && notices == old(notices) + Notices(t, old(notifierUp))
        && upserts == old(upserts) + Upserts(id, t)
        && order == old(order) && notifierUp == old(notifierUp)
    {
      documents := documents[id := doc.(content := x.text, status := Processing)];
      statusWrites := statusWrites + [StatusWrite(id, Processing)];
      var chunks := VectorChunks(id, doc, x.pieces);
      var reply := env.upsert(doc.companyId, chunks);
      if reply.Err? {
        MarkFailed(id, doc, reply.message);
        return Err(reply.message);
      }
      upserts := upserts + [UpsertCall(doc.companyId, chunks)];
      documents := documents[id := documents[id].(status := Processed, chunksCount := Some(|x.pieces|))];
      statusWrites := statusWrites + [StatusWrite(id, Processed)];
      if doc.createdBy != [] {
        if !notifierUp {
          MarkFailed(id, doc, NotifyFailed);
          return Err(NotifyFailed);
        }
        notices := notices + [Notice(doc.createdBy, doc.title, Processed, None)];
      }
      r := Ok(ProcessResult(reply.value.status == "success", |x.pieces|, reply.value.vectorsUpserted));
    }

    /** The `catch` block for a stored document: mark it `failed` with the message,
        then tell its creator if there is one and the notifier answers (a
        notification that throws is swallowed). */
    method MarkFailed(id: string, doc: Document, message: string)
      requires id in documents
      modifies this
      ensures documents == old(documents)[id := old(documents)[id].(status := Failed, error := Some(message))]
      ensures statusWrites == old(statusWrites) + [StatusWrite(id, Failed)]
      ensures notices == old(notices) +
        (if doc.createdBy != [] && notifierUp then [Notice(doc.createdBy, doc.title, Failed, Some(message))] else [])
      ensures upserts == old(upserts) && order == old(order) && notifierUp == old(notifierUp)
    {
      documents := documents[id := documents[id].(status := Failed, error := Some(message))];
      statusWrites := statusWrites + [StatusWrite(id, Failed)];
      if doc.createdBy != [] && notifierUp {
        notices := notices + [Notice(doc.createdBy, doc.title, Failed, Some(message))];
      }
    }

    /** One iteration of `processCompanyDocuments`: process the document, whose
        run follows trace `t`, and record its result or its error. */
    method ProcessOne(id: string, ghost t: Trace, env: Env) returns (entry: BatchEntry)
      requires t == TraceOf(Lookup(documents, id), id, env, notifierUp)
      modifies this
      ensures entry == Entry(id, Outcome(t))
      ensures documents == (if t.Missing? then old(documents) else old(documents)[id := Settled(t)])
      ensures statusWrites == old(statusWrites) + Trail(id, t)
      ensures notices == old(notices) + Notices(t, old(notifierUp))
      ensures upserts == old(upserts) + Upserts(id, t)
      ensures order == old(order) && notifierUp == old(notifierUp)
    {
      var r := ProcessDocument(id, env);
      entry := Entry(id, r);
    }

    /** `processCompanyDocuments`: every selected document is processed in turn and
        a failure never stops the batch. The results list each selected document
        once, in order, with what processing it from its stored record gives; each
        selected record ends as that processing leaves it, every other record is
        untouched, and the writes, notifications and upserts are those of the
        selected documents one after the other. */
    method ProcessCompanyDocuments(companyId: string, env: Env) returns (results: seq<BatchEntry>)
      requires Valid()
      modifies this
      ensures Valid() && order == old(order) && notifierUp == old(notifierUp)
      ensures var sel := Selected(old(documents), old(order), companyId);
        results == Expectations(old(documents), sel, env, notifierUp)
        && documents.Keys == old(documents).Keys
        && (forall id :: id in old(documents) && id in sel ==>
              id in documents && documents[id] == Settled(TraceOf(Some(old(documents)[id]), id, env, notifierUp)))
        && (forall id :: id in old(documents) && id !in sel ==> id in documents && documents[id] == old(documents)[id])
      ensures var e := BatchEffects(old(documents), Selected(old(documents), old(order), companyId), env, notifierUp);
        statusWrites == old(statusWrites) + e.writes
        && notices == old(notices) + e.notices
        && upserts == old(upserts) + e.upserts
    {
      var pending := Selected(documents, order, companyId);
      SelectedDistinct(documents, order, companyId);
      results := ProcessAll(pending, env);
    }

    /** The batch after its first `i` ids: `results` holds their entries, their
        records are settled, and the effects so far follow `start`. */
    ghost predicate BatchAt(stored: map<string, Document>, pending: seq<string>, entries: seq<BatchEntry>,
                            finals: seq<Document>, steps: seq<Effects>, start: Effects,
                            i: nat, results: seq<BatchEntry>)
      reads this
    {
      i <= |pending| && i <= |entries| && i <= |steps|
      && results == entries[..i]
      && SettledUpTo(stored, documents, pending, finals, i)
      && Effects(statusWrites, notices, upserts) == Then(start, Concat(steps[..i]))
    }

    /** The body of the loop of `processCompanyDocuments`: the next id is processed
        and its entry appended. */
    method Visit(pending: seq<string>, env: Env, ghost stored: map<string, Document>, ghost ts: seq<Trace>,
                 ghost entries: seq<BatchEntry>, ghost finals: seq<Document>, ghost steps: seq<Effects>,
                 ghost start: Effects, i: nat, results: seq<BatchEntry>) returns (next: seq<BatchEntry>)
      requires i < |pending|
      requires forall j, k :: 0 <= j < k < |pending| ==> pending[j] != pending[k]
      requires forall k :: 0 <= k < |pending| ==> pending[k] in stored
      requires ts == Traces(stored, pending, env, notifierUp) && entries == EntriesOf(pending, ts)
      requires finals == Finals(stored, pending, env, notifierUp) && steps == StepsOf(pending, ts, notifierUp)
      requires documents.Keys == stored.Keys
      requires BatchAt(stored, pending, entries, finals, steps, start, i, results)
      modifies this
      ensures order == old(order) && notifierUp == old(notifierUp) && documents.Keys == old(documents).Keys
      ensures BatchAt(stored, pending, entries, finals, steps, start, i + 1, next)
    {
      var id := pending[i];
      ghost var before := documents;
      ghost var effects := Effects(statusWrites, notices, upserts);
      Unvisited(stored, documents, pending, finals, i);
      var entry := ProcessOne(id, ts[i], env);
      Visited(stored, pending, env, notifierUp, ts, entries, finals, steps, i,
              results, entry, before, documents, start, effects, Effects(statusWrites, notices, upserts));
      next := results + [entry];
    }

    /** The loop of `processCompanyDocuments` over the selected ids, none twice. */
    method ProcessAll(pending: seq<string>, env: Env) returns (results: seq<BatchEntry>)
      requires forall j, k :: 0 <= j < k < |pending| ==> pending[j] != pending[k]
      requires forall k :: 0 <= k < |pending| ==> pending[k] in documents
      modifies this
      ensures order == old(order) && notifierUp == old(notifierUp)
      ensures results == Expectations(old(documents), pending, env, old(notifierUp))
      ensures documents.Keys == old(documents).Keys
      ensures forall id :: id in old(documents) && id in pending ==>
        id in documents && documents[id] == Settled(TraceOf(Some(old(documents)[id]), id, env, old(notifierUp)))
      ensures forall id :: id in old(documents) && id !in pending ==> id in documents && documents[id] == old(documents)[id]
      ensures var e := BatchEffects(old(documents), pending, env, old(notifierUp));
        statusWrites == old(statusWrites) + e.writes
        && notices == old(notices) + e.notices
        && upserts == old(upserts) + e.upserts
    {
      ghost var ts := Traces(documents, pending, env, notifierUp);
      ghost var entries := EntriesOf(pending, ts);
      ghost var finals := Finals(documents, pending, env, notifierUp);
      ghost var steps := StepsOf(pending, ts, notifierUp);
      ghost var start := Effects(statusWrites, notices, upserts);
      results := [];
      var i := 0;
      while i < |pending|
        invariant i <= |pending|
        invariant order == old(order) && notifierUp == old(notifierUp)
        invariant documents.Keys == old(documents).Keys
        invariant BatchAt(old(documents), pending, entries, finals, steps, start, i, results)
      {
        results := Visit(pending, env, old(documents), ts, entries, finals, steps, start, i, results);
        i := i + 1;
      }
      assert pending[..i] == pending && entries[..i] == entries && steps[..i] == steps;
      SettledAll(old(documents), documents, pending, env, notifierUp);
    }
  }

  /** After the first `i` of `ids`: each of them holds its final record, and every
      stored record not among them is as stored. */
  ghost predicate SettledUpTo(stored: map<string, Document>, docs: map<string, Document>,
                              ids: seq<string>, finals: seq<Document>, i: nat)
  {
    i <= |ids| && |finals| == |ids|
    && (forall k :: 0 <= k < i ==> ids[k] in docs && docs[ids[k]] == finals[k])
    && forall id :: id in stored && id !in ids[..i] ==> id in docs && docs[id] == stored[id]
  }

  /** The next id was not visited yet, so its record is still as stored. */
  lemma {:induction false} Unvisited(stored: map<string, Document>, docs: map<string, Document>,
                                     ids: seq<string>, finals: seq<Document>, i: nat)
    requires i < |ids| && ids[i] in stored
    requires forall j, k :: 0 <= j < k < |ids| ==> ids[j] != ids[k]
    requires SettledUpTo(stored, docs, ids, finals, i)
    ensures ids[i] !in ids[..i]
    ensures Lookup(docs, ids[i]) == Lookup(stored, ids[i])
  {
    forall k | 0 <= k < i ensures ids[..i][k] != ids[i] { }
  }

  /** Settling the next id extends `SettledUpTo` by one. */
  lemma {:induction false} SettleStep(stored: map<string, Document>, before: map<string, Document>,
                                      after: map<string, Document>, ids: seq<string>, finals: seq<Document>, i: nat)
    requires i < |ids| && ids[i] !in ids[..i]
    requires SettledUpTo(stored, before, ids, finals, i)
    requires after == before[ids[i] := finals[i]]
    ensures SettledUpTo(stored, after, ids, finals, i + 1)
  {
    forall k | 0 <= k < i ensures ids[k] != ids[i] {
      assert ids[k] == ids[..i][k];
    }
    forall id | id in stored && id !in ids[..i + 1] ensures id in after && after[id] == stored[id] {
      assert ids[..i + 1] == ids[..i] + [ids[i]];
    }
  }

  /** One more element of a sequence's prefix. */
  lemma {:induction false} PrefixStep<T>(s: seq<T>, i: nat)
    requires i < |s|
    ensures s[..i + 1] == s[..i] + [s[i]]
  {
  }

  /** `Then` is associative. */
  lemma {:induction false} ThenAssoc(a: Effects, b: Effects, c: Effects)
    ensures Then(Then(a, b), c) == Then(a, Then(b, c))
  {
    assert a.writes + b.writes + c.writes == a.writes + (b.writes + c.writes);
    assert a.notices + b.notices + c.notices == a.notices + (b.notices + c.notices);
    assert a.upserts + b.upserts + c.upserts == a.upserts + (b.upserts + c.upserts);
  }

  /** Processing the next id extends the batch's effects by that document's. */
  lemma {:induction false} EffectsStep(steps: seq<Effects>, i: nat, start: Effects, before: Effects, after: Effects)
    requires i < |steps|
    requires before == Then(start, Concat(steps[..i]))
    requires after == Then(before, steps[i])
    ensures after == Then(start, Concat(steps[..i + 1]))
  {
    assert steps[..i + 1][..i] == steps[..i];
    ThenAssoc(start, Concat(steps[..i]), steps[i]);
  }

  /** One iteration of the batch keeps its three invariants: the results so far,
      the records settled so far and the effects so far. */
  lemma {:induction false} Visited(stored: map<string, Document>, ids: seq<string>, env: Env, notifierUp: bool,
                                   ts: seq<Trace>, entries: seq<BatchEntry>, finals: seq<Document>, steps: seq<Effects>,
                                   i: nat, results: seq<BatchEntry>, entry: BatchEntry,
                                   before: map<string, Document>, after: map<string, Document>,
                                   start: Effects, effects: Effects, effectsAfter: Effects)
    requires i < |ids| && ids[i] !in ids[..i]
    requires forall k :: 0 <= k < |ids| ==> ids[k] in stored
    requires ts == Traces(stored, ids, env, notifierUp) && entries == EntriesOf(ids, ts)
    requires finals == Finals(stored, ids, env, notifierUp) && steps == StepsOf(ids, ts, notifierUp)
    requires results == entries[..i]
    requires SettledUpTo(stored, before, ids, finals, i)
    requires effects == Then(start, Concat(steps[..i]))
    requires entry == Entry(ids[i], Outcome(ts[i]))
    requires after == (if ts[i].Missing? then before else before[ids[i] := Settled(ts[i])])
    requires effectsAfter.writes == effects.writes + Trail(ids[i], ts[i])
    requires effectsAfter.notices == effects.notices + Notices(ts[i], notifierUp)
    requires effectsAfter.upserts == effects.upserts + Upserts(ids[i], ts[i])
    ensures results + [entry] == entries[..i + 1]
    ensures SettledUpTo(stored, after, ids, finals, i + 1)
    ensures effectsAfter == Then(start, Concat(steps[..i + 1]))
  {
    assert finals[i] == Settled(ts[i]);
    PrefixStep(entries, i);
    SettleStep(stored, before, after, ids, finals, i);
    EffectsStep(steps, i, start, effects, effectsAfter);
  }

  /** Once every id is visited: each one's record is settled from its stored
      record, and the others are as stored. */
  lemma {:induction false} SettledAll(stored: map<string, Document>, docs: map<string, Document>,
                                      ids: seq<string>, env: Env, notifierUp: bool)
    requires forall k :: 0 <= k < |ids| ==> ids[k] in stored
    requires SettledUpTo(stored, docs, ids, Finals(stored, ids, env, notifierUp), |ids|)
    ensures forall id :: id in stored && id in ids ==>
      id in docs && docs[id] == Settled(TraceOf(Some(stored[id]), id, env, notifierUp))
    ensures forall id :: id in stored && id !in ids ==> id in docs && docs[id] == stored[id]
  {
    var finals := Finals(stored, ids, env, notifierUp);
    assert ids[..|ids|] == ids;
    forall id | id in stored && id in ids
      ensures id in docs && docs[id] == Settled(TraceOf(Some(stored[id]), id, env, notifierUp))
    {
      var k :| 0 <= k < |ids| && ids[k] == id;
      assert docs[id] == finals[k];
    }
  }

  /** Entry `k` of the batch is what processing `ids[k]` from its stored record
      gives. */
  lemma {:induction false} ExpectationsAt(docs: map<string, Document>, ids: seq<string>, env: Env, notifierUp: bool, k: nat)
    requires k < |ids|
    ensures Expectations(docs, ids, env, notifierUp)[k] == Expected(Lookup(docs, ids[k]), ids[k], env, notifierUp)
  {
    assert Traces(docs, ids, env, notifierUp)[k] == TraceOf(Lookup(docs, ids[k]), ids[k], env, notifierUp);
  }

  /** The selection is exactly the stored documents of the company whose status
      is `pending`, `uploaded` or `failed`, in collection order. */
  lemma {:induction false} SelectedIsFilter(docs: map<string, Document>, order: seq<string>, companyId: string)
    ensures var sel := Selected(docs, order, companyId);
      forall id :: id in sel <==>
        id in order && id in docs && docs[id].companyId == companyId && Reprocessable(docs[id].status)
    decreases |order|
  {
    if order != [] {
      SelectedIsFilter(docs, order[1..], companyId);
    }
  }

  /** A listing without repeats selects each document once, and only stored ones. */
  lemma {:induction false} SelectedDistinct(docs: map<string, Document>, order: seq<string>, companyId: string)
    requires forall i, j :: 0 <= i < j < |order| ==> order[i] != order[j]
    ensures forall k :: 0 <= k < |Selected(docs, order, companyId)| ==>
      Selected(docs, order, companyId)[k] in docs && Selected(docs, order, companyId)[k] in order
    ensures forall i, j :: 0 <= i < j < |Selected(docs, order, companyId)| ==>
      Selected(docs, order, companyId)[i] != Selected(docs, order, companyId)[j]
    decreases |order|
  {
    if order != [] {
      SelectedDistinct(docs, order[1..], companyId);
      assert order[0] !in order[1..];
    }
  }

  /** Processing always settles a stored document: `processed` exactly when it
      succeeds, `failed` with the returned message otherwise. */
  lemma {:induction false} SettledStatus(doc: Document, id: string, env: Env, notifierUp: bool)
    ensures var t := TraceOf(Some(doc), id, env, notifierUp);
      var d := Settled(t);
      (Outcome(t).Ok? <==> d.status == Processed)
      && (Outcome(t).Err? <==> d.status == Failed)
      && (Outcome(t).Err? ==> d.error == Some(Outcome(t).message))
      && (Outcome(t).Ok? ==> d.error == doc.error)
  {
  }

  /** The `processing` status is written exactly when the text was extracted;
      when nothing readable was extracted, the only write is `failed` and the
      stored content is left as it was. */
  lemma {:induction false} ProcessingOnlyAfterText(doc: Document, id: string, env: Env, notifierUp: bool)
    ensures var t := TraceOf(Some(doc), id, env, notifierUp);
      (StatusWrite(id, Processing) in Trail(id, t) <==> Extract(doc, env).Ok?)
      && (Extract(doc, env).Err? ==> Trail(id, t) == [StatusWrite(id, Failed)] && Settled(t).content == doc.content)
  {
  }

  /** On success, the result counts the chunks the store records, reports success
      exactly when the index said `success`, and the index received one vector
      chunk per extracted chunk. */
  lemma {:induction false} SuccessCounts(doc: Document, id: string, env: Env, notifierUp: bool)
    requires Outcome(TraceOf(Some(doc), id, env, notifierUp)).Ok?
    ensures var t := TraceOf(Some(doc), id, env, notifierUp);
      var res := Outcome(t).value;
      Extract(doc, env).Ok?
      && Settled(t).chunksCount == Some(res.chunksProcessed)
      && res.chunksProcessed == |Extract(doc, env).value.pieces|
      && |Upserts(id, t)| == 1 && |Upserts(id, t)[0].chunks| == res.chunksProcessed
      && (res.success <==> env.upsert(doc.companyId, Upserts(id, t)[0].chunks).value.status == "success")
  {
  }

  /** The error conditions checked before any download or write. */
  lemma {:induction false} EarlyErrors(od: Option<Document>, id: string, env: Env, notifierUp: bool)
    ensures od.None? ==> Outcome(TraceOf(od, id, env, notifierUp)) == Err(NotFound)
    ensures od.Some? && od.value.fileUrl == [] ==>
      Outcome(TraceOf(od, id, env, notifierUp)) == Err(NoFileUrl)
      && Trail(id, TraceOf(od, id, env, notifierUp)) == [StatusWrite(id, Failed)]
  {
  }

  /** A downloaded file that is neither a PDF nor plain text is rejected with its
      type named, after the download and before any write but the failure. */
  lemma {:induction false} UnsupportedType(doc: Document, env: Env)
    requires doc.fileUrl != [] && env.fetch(doc.fileUrl).Response? && env.fetch(doc.fileUrl).ok
    requires doc.fileType != "application/pdf" && doc.fileType != "text/plain"
    ensures Extract(doc, env) == Err("Unsupported file type: " + doc.fileType)
  {
  }

  /** A plain-text file: its decoded text is chunked with 1000/200, and chunk `i`
      is numbered page `i + 1` with no images. */
  lemma {:induction false} PlainTextChunks(doc: Document, env: Env)
    requires Extract(doc, env).Ok? && doc.fileType == "text/plain"
    ensures var x := Extract(doc, env).value;
      var cs := Chunker.Chunks(x.text, ChunkOptions);
      |x.pieces| == |cs| && forall i :: 0 <= i < |cs| ==> x.pieces[i] == Piece(cs[i], i + 1, [])
  {
  }

  /** A PDF: the text is the page texts joined, and every chunk comes from one
      page, carrying that page's number (counted from 1) and images. */
  lemma {:induction false} PdfChunks(doc: Document, env: Env, k: nat) returns (pages: seq<PageSource>, i: nat)
    requires Extract(doc, env).Ok? && doc.fileType == "application/pdf"
    requires k < |Extract(doc, env).value.pieces|
    ensures env.render(env.fetch(doc.fileUrl).body) == Ok(pages)
    ensures Extract(doc, env).value.text == DocText(pages)
    ensures i < |pages|
    ensures var p := Extract(doc, env).value.pieces[k];
      p.pageNumber == i + 1 && p.images == PageImages(pages[i].ops, env.encode)
      && p.text in Chunker.Chunks(PageText(pages[i]), ChunkOptions)
  {
    pages := env.render(env.fetch(doc.fileUrl).body).value;
    var parsed := ParsedPages(pages, env.encode);
    var j;
    i, j := ChunkPdfFromOnePage(parsed, ChunkOptions, k);
  }

  /** Reprocessing a stored document never touches any other document. */
  lemma {:induction false} OthersUntouched(docs: map<string, Document>, id: string, other: string, env: Env, notifierUp: bool)
    requires other != id && other in docs
    ensures var t := TraceOf(Lookup(docs, id), id, env, notifierUp);
      var after := if t.Missing? then docs else docs[id := Settled(t)];
      other in after && after[other] == docs[other]
  {
  }
}
