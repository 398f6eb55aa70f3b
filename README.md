# Document pipeline, database audit and tenant migration: a Dafny model

This project models the core of the benefits chatbot's document retrieval
pipeline and two of its database maintenance routines. It also proves what
each of them promises.

- **Chunking** (`lib/documents/pdf-parser.ts`, `chunkText`, `chunkPdf`).
  Text is normalised to single spaces. It is then split into sentences after
  `.`, `!` or `?`. The sentences are gathered into chunks under a size budget,
  and each new chunk is seeded with the trailing words of the chunk just
  closed. `chunkPdf` chunks each page on its own and tags every chunk with its
  page number and the page's images. Modules `Chunker`, `ChunkerProofs`,
  `ChunkerFacts` and `TextUtil`.
- **PDF page loop** (`parsePdf`). Pages are numbered from 1. Each page's text
  is its text items joined with spaces. The document text joins the page
  texts with newlines. Images are collected per page and document-wide, and
  24-bit RGB pixels are expanded to RGBA in place in a fresh buffer. Module
  `PdfParser`.
- **RAG ingestion and search** (`lib/ai/rag-system.ts`). `processDocument`
  writes one chunk record per chunk and upserts the non-empty embeddings to
  the vector index in one batch. It then marks the document processed. `search`
  embeds the query, asks the index for neighbours, hydrates them from the chunk
  store and keeps only the caller's company. Module `RagSystem`, class
  `Backend`.
- **Document processor** (`lib/documents/processor.ts`). A stored document is
  downloaded, its text extracted (PDF or plain text) and chunked, and the
  chunks handed to the vector index. Its status moves through `processing` to
  `processed`, or to `failed` with the error message, and its creator is
  notified. `processCompanyDocuments` does this for every pending document of a
  company. Module `Processor`, class `DocumentStore`.
- **Database audit** (`app/api/admin/cleanup-database/route.ts`). Users are
  grouped by email, and the users without a real Stack Auth id and those
  without a company are selected. The report counts and lists them and gives
  recommendations. Module `CleanupDatabase`.
- **Multi-tenant migration** (`lib/db/migrations/001_multi_tenant_migration.ts`,
  steps 2 to 5 and the result of `runMigration`). A default company is created,
  every legacy user is copied into it, and legacy chats and messages are
  re-parented onto the new rows, skipping orphans. Module `Migration`, class
  `Database`.

External services are function parameters: the embedding model, the
nearest-neighbour search, the download, the PDF renderer, the PNG encoder, the
text decoder, the index upsert and `JSON.stringify`. Stores that the code
updates in place are fields of classes: Firestore collections, the
notification log and the migration's tables. Every method is proved against a
specification function, and the lemmas state what those functions mean.

Where the code and its written design disagree, the model follows the code:

- The design says blank-line runs are kept as one blank line. The code then
  collapses every white-space run to one space, so no newline survives
  (`CleanTextIsNormal`).
- The design says a chunk stays within `maxChunkSize` characters. The code's
  `size` counter leaves out the joining spaces, so a chunk may be longer. The
  model states the exact test the code applies (`ChunksAreSegmented`).
- The design bounds the carried overlap by `floor(overlapSize / 10)` words.
  With an `overlapSize` from 0 to 9 that is `slice(-0)`, which keeps every word
  of the previous chunk (`OverlapBelowTenKeepsAll`). Both callers pass 200.
- The design describes a keyword fallback for search. `search` in the code has
  none: any failure yields an empty list (`RagSystem.Backend.Search`).
- The design says chunk records are written whatever happens to their
  embedding. In the code, a failed embedding throws before that chunk's record
  is written (`RagSystem.Backend.WriteChunks`).

## Model

| member | source | states |
|---|---|---|
| TextUtil.TrimStart | lib/documents/pdf-parser.ts:106 | The result is a suffix of the input, starts with a non-space, and everything dropped is white space. |
| TextUtil.Trim | lib/documents/pdf-parser.ts:106 | `trim()`: the result neither starts nor ends with white space and is no longer than the input. |
| TextUtil.TrimIsInnerSlice | lib/documents/pdf-parser.ts:106 | The trimmed string is a slice of the input and every character outside it is white space. |
| TextUtil.TrimEmptyIffAllSpace | lib/documents/pdf-parser.ts:125 | Trimming gives the empty string exactly when the string is all white space. |
| TextUtil.TrimIdempotent | lib/documents/pdf-parser.ts:113 | Trimming twice is trimming once. |
| TextUtil.TrimOfTrimmed | lib/documents/pdf-parser.ts:113 | A string that neither starts nor ends with white space is its own trim. |
| TextUtil.SplitOn | lib/documents/pdf-parser.ts:115 | `split(' ')` yields at least one piece and no piece contains the separator. |
| TextUtil.JoinSplitOn | lib/documents/pdf-parser.ts:114-117 | Joining the pieces of a split with the same separator gives the string back. |
| TextUtil.JoinConcat | lib/documents/pdf-parser.ts:117 | Joining two lists is joining each and putting one separator between them. |
| TextUtil.JoinSnoc | lib/documents/pdf-parser.ts:52 | Appending a piece adds the separator and the piece, except to an empty list. |
| TextUtil.JoinTailIsSuffix | lib/documents/pdf-parser.ts:114-117 | The join of a list's tail is a suffix of the join of the list. |
| TextUtil.SliceFrom | lib/documents/pdf-parser.ts:116 | `slice(start)` with JavaScript's negative-index rule returns a suffix of the list: the last `-start` items (all when fewer) for a negative start, and all but the first `start` items otherwise. |
| TextUtil.NatToStringInjective | lib/ai/rag-system.ts:22 | Distinct numbers have distinct decimal forms. |
| TextUtil.AllSpaceConcat | lib/documents/pdf-parser.ts:105 | A concatenation is all white space exactly when both parts are. |
| Chunker.Collapse | lib/documents/pdf-parser.ts:104-105 | Every white-space run becomes one space: never longer, the first character kept or made a space, and all white space exactly when the input is. |
| Chunker.SplitFrom | lib/documents/pdf-parser.ts:107 | The sentence split always yields at least one sentence, as `split` does. |
| Chunker.ChunkText | lib/documents/pdf-parser.ts:97-129 | `chunkText` returns `Chunks(text, opts)`: normalise, split, accumulate, push the last chunk. |
| Chunker.Accumulate | lib/documents/pdf-parser.ts:108-127 | The sentence loop, with its cut and append branches and the final push, computes `Finish(Run(sentences))`. |
| ChunkerProofs.CollapseIsCollapsed | lib/documents/pdf-parser.ts:105 | After collapsing, every white-space character is a single space with no white space beside it. |
| ChunkerProofs.CleanTextIsNormal | lib/documents/pdf-parser.ts:103-106 | The cleaned text has only single interior spaces and no other white space. |
| ChunkerProofs.CleanTextEmptyIffAllSpace | lib/documents/pdf-parser.ts:103-106 | The cleaned text is empty exactly when the input is all white space. |
| ChunkerProofs.NormalIsFixed | lib/documents/pdf-parser.ts:103-106 | Cleaning text that is already clean changes nothing, so cleaning is idempotent. |
| ChunkerProofs.CollapsedIsFixed | lib/documents/pdf-parser.ts:105 | Collapsing text that has no white-space run changes nothing. |
| ChunkerProofs.SplitSentencesOfNormal | lib/documents/pdf-parser.ts:107 | On clean text the split rejoins with single spaces to the text, no sentence is empty or has a break inside it, and every sentence but the last ends with `.`, `!` or `?`. |
| ChunkerProofs.SplitFromNormal | lib/documents/pdf-parser.ts:107 | The same for the split resumed part-way with a sentence in progress. |
| ChunkerProofs.CutRest | lib/documents/pdf-parser.ts:107 | At a sentence break in clean text the white space is one space and the rest is clean again. |
| ChunkerProofs.CutSplit | lib/documents/pdf-parser.ts:107 | A break puts the sentence read so far before the split of the rest. |
| ChunkerProofs.ExtendSentence | lib/documents/pdf-parser.ts:107 | Reading a character that is not a break keeps the sentence free of breaks. |
| ChunkerProofs.StepCut | lib/documents/pdf-parser.ts:112-119 | A cut closes the chunk in progress with its trimmed text and opens the next one seeded with the overlap and a space. |
| ChunkerProofs.StepAppend | lib/documents/pdf-parser.ts:120-123 | An append adds the sentence to the chunk in progress, within the budget test. |
| ChunkerProofs.StepPartial | lib/documents/pdf-parser.ts:110-124 | One loop iteration keeps the exact description of the chunks closed so far and of the one in progress. |
| ChunkerProofs.RunPartial | lib/documents/pdf-parser.ts:110-124 | After any number of sentences the loop's variables match that description. |
| ChunkerProofs.RunSnoc | lib/documents/pdf-parser.ts:110-124 | Running over one more sentence is one more step. |
| ChunkerProofs.FinishSegmented | lib/documents/pdf-parser.ts:125-127 | The final push completes the description: the last chunk is closed and added when it is not blank. |
| ChunkerProofs.ChunksAreSegmented | lib/documents/pdf-parser.ts:97-129 | Blank input gives no chunks. Otherwise each sentence goes to exactly one chunk, in order. The first chunk has no lead and each later chunk starts with the overlap of the one before. A sentence joins a chunk only when `size` plus its length is within `maxChunkSize`, and a cut happens only when it is not. Every chunk is its text trimmed. |
| ChunkerProofs.TrimAllIndex | lib/documents/pdf-parser.ts:113 | Each returned chunk is the trimmed text of the chunk that was closed. |
| ChunkerFacts.ChunksNonEmptyTrimmed | lib/documents/pdf-parser.ts:110-127 | Every chunk is non-empty and equal to its own trim. |
| ChunkerFacts.OverlapIsSuffix | lib/documents/pdf-parser.ts:114-117 | The carried overlap is a suffix of the chunk just closed. |
| ChunkerFacts.OverlapBelowTenKeepsAll | lib/documents/pdf-parser.ts:116 | With `overlapSize` from 0 to 9, `slice(-0)` carries the whole previous chunk. |
| ChunkerFacts.OverlapWords | lib/documents/pdf-parser.ts:116 | The carried overlap is the space-joined last `floor(overlapSize / 10)` words of the chunk just closed (all of them when it has fewer); a negative count drops that many leading words. |
| ChunkerFacts.SplitJoin | lib/documents/pdf-parser.ts:107 | Space-free sentences ending in `.`, `!` or `?`, joined by single spaces, split back into themselves. |
| ChunkerFacts.SplitFromWord | lib/documents/pdf-parser.ts:107 | A word without white space is read into the sentence in progress. |
| ChunkerFacts.RunChunksGrow | lib/documents/pdf-parser.ts:110-124 | Reading more sentences never changes a chunk already pushed. |
| ChunkerFacts.ClosedNotAllSpace | lib/documents/pdf-parser.ts:125 | A closed chunk's text holds a non-space character. |
| ChunkerFacts.JoinOfWordsIsNormal | lib/documents/pdf-parser.ts:103-106 | Space-free words joined with single spaces are already clean. |
| ChunkerFacts.CopiesSplit | tests/pdf-parser.test.ts:28-35 | Copies of "Sentence." joined with spaces split back into the copies. |
| ChunkerFacts.FirstCutAtTwo | tests/pdf-parser.test.ts:28-35 | With copies of a 9-character sentence and a budget of 20, the first chunk takes exactly two sentences. |
| ChunkerFacts.FirstCutIsSecond | tests/pdf-parser.test.ts:28-35 | With copies of a 9-character sentence and a budget of 20, the first cut falls before the third sentence and there is a second chunk. |
| ChunkerFacts.CopiesOfNine | tests/pdf-parser.test.ts:28-35 | Three or more such copies under options 20/5 give more than one chunk, and the first is two sentences. |
| ChunkerFacts.WorkedExample | tests/pdf-parser.test.ts:28-35 | Twenty copies of "Sentence." under options 20/5 give more than one chunk, and the first has 19 characters, within the budget. |
| PdfParser.ExpandRgb | lib/documents/pdf-parser.ts:68-77 | The in-place loop over a zero-filled `width*height*4` buffer produces `Expanded(src, n)`: each pixel is its three bytes then 255, unreached bytes stay 0, and writes past the end are dropped. |
| PdfParser.EncodeImage | lib/documents/pdf-parser.ts:67-82 | An image operator yields the data URI of its pixels, RGB images expanded to RGBA first. |
| PdfParser.FilledAll | lib/documents/pdf-parser.ts:69-76 | Once the source is consumed, the buffer is the full expansion: bytes no pixel reaches stay 0. |
| PdfParser.WritePixel | lib/documents/pdf-parser.ts:71-74 | One iteration sets bytes `p` to `p+3` that lie in the buffer to the pixel's value and changes nothing else. |
| PdfParser.Expanded | lib/documents/pdf-parser.ts:69 | The buffer has exactly `width*height*4` bytes. |
| PdfParser.ExpandedPixel | lib/documents/pdf-parser.ts:70-75 | With three bytes per pixel, output pixel `q` is source pixel `q` followed by an opaque alpha. |
| PdfParser.ExpandedPastSource | lib/documents/pdf-parser.ts:69-70 | Pixels the short source never reaches stay 0. |
| PdfParser.CollectImages | lib/documents/pdf-parser.ts:56-86 | The operator loop collects one data URI per image operator, in order, and appends them to the document list tagged with the page number. |
| PdfParser.PageImagesStep | lib/documents/pdf-parser.ts:56-85 | One more operator adds its data URI exactly when it paints an image. |
| PdfParser.Tag | lib/documents/pdf-parser.ts:83 | Every document-wide entry carries its page number and its URI, one per URI. |
| PdfParser.TagSnoc | lib/documents/pdf-parser.ts:83 | Tagging one more URI appends one entry. |
| PdfParser.ParsedPages | lib/documents/pdf-parser.ts:88 | Page `i` is numbered `i + 1` and keeps its own text and images. |
| PdfParser.ParsePdf | lib/documents/pdf-parser.ts:44-91 | The page loop returns one page per source page in order, the page count, the newline-joined text and the tagged image list. |
| PdfParser.DocStep | lib/documents/pdf-parser.ts:48-89 | One more page appends its page entry, its newline-joined text and its tagged images. |
| PdfParser.SkipEmpty | lib/documents/pdf-parser.ts:52 | Leading empty page texts are dropped and what remains starts with a non-empty text. |
| PdfParser.PageTexts | lib/documents/pdf-parser.ts:51 | Each page's text is its items joined with spaces. |
| PdfParser.SkipEmptySnoc | lib/documents/pdf-parser.ts:52 | Adding a page text extends the kept texts, or starts them when all before were empty. |
| PdfParser.DocTextJoin | lib/documents/pdf-parser.ts:52 | `text += (text ? '\n' : '') + pageText` is the newline join of the page texts after the leading empty ones. |
| PdfParser.JoinNonEmpty | lib/documents/pdf-parser.ts:52 | A join whose first piece is non-empty is non-empty. |
| PdfParser.DocImagesIndex | lib/documents/pdf-parser.ts:83-84 | Image `j` of page `i` sits in the document list right after the images of the earlier pages. |
| PdfParser.DocImagesCount | lib/documents/pdf-parser.ts:83-84 | The document list holds exactly the pages' images, no more. |
| PdfParser.DocImagesTagged | lib/documents/pdf-parser.ts:83 | Every document-wide entry names a real page and is one of that page's images. |
| PdfParser.PagePieces | lib/documents/pdf-parser.ts:139-144 | One piece per chunk of the page, with the page's number and all its images. |
| PdfParser.FlatPiecesIndex | lib/documents/pdf-parser.ts:138-145 | Chunk `j` of page `i` sits in the result right after the pieces of the earlier pages. |
| PdfParser.FlatPiecesFromOnePage | lib/documents/pdf-parser.ts:138-145 | Every piece comes from one page's chunks and carries that page's number and images. |
| PdfParser.ChunkPdfIndexByChunker | lib/documents/pdf-parser.ts:134-146 | `FlatPiecesIndex` for the page chunker `chunkPdf` builds from its options. |
| PdfParser.ChunkPdfIndex | lib/documents/pdf-parser.ts:134-146 | `chunkPdf` places page `i`'s chunk `j` after all pieces of earlier pages: pages are never merged. |
| PdfParser.ChunkPdfFromOnePage | lib/documents/pdf-parser.ts:134-146 | Every piece of `chunkPdf` is a `chunkText` chunk of a single page, tagged with that page. |
| RagSystem.ChunkIdInjective | lib/ai/rag-system.ts:22 | Within a document, distinct chunk indices give distinct ids. |
| RagSystem.WrittenHolds | lib/ai/rag-system.ts:27-35 | After the loop, each chunk reached is stored under its id with its content, company, document and section `Part i+1`. |
| RagSystem.WrittenElsewhere | lib/ai/rag-system.ts:35 | Records under other ids are untouched, and no other key is added. |
| RagSystem.WrittenCount | lib/ai/rag-system.ts:20-40 | Into an empty store, `m` chunks give exactly `m` records. |
| RagSystem.WrittenKeys | lib/ai/rag-system.ts:22-35 | Every key written is a chunk id of the document. |
| RagSystem.Reached | lib/ai/rag-system.ts:20-24 | The loop gets no further than the number of chunks. |
| RagSystem.ReachedIsFirstFailure | lib/ai/rag-system.ts:24 | The loop stops exactly at the first failed embedding. |
| RagSystem.BatchIndices | lib/ai/rag-system.ts:37-39 | The upsert batch has one item per chunk with a non-empty embedding, in chunk order, under that chunk's id, and nothing else. |
| RagSystem.HydrateShift | lib/ai/rag-system.ts:100-108 | The kept neighbour positions after the first, renumbered among all neighbours, stay increasing and complete. |
| RagSystem.HydrateKeep | lib/ai/rag-system.ts:100-108 | A first neighbour that hydrates to this company's chunk leads the results. |
| RagSystem.HydrateSkip | lib/ai/rag-system.ts:108 | A first neighbour that is missing or of another company is dropped. |
| RagSystem.HydrateIndices | lib/ai/rag-system.ts:100-108 | The results follow the neighbours' order and hold exactly the neighbours whose chunk is found and belongs to the caller's company, each with its chunk and distance. No result belongs to another company. |
| RagSystem.Backend.constructor | lib/ai/rag-system.ts:8 | The stores start as given with no upsert made. |
| RagSystem.Backend.ProcessDocument | lib/ai/rag-system.ts:10-58 | Records are written up to the first failed embedding. A failure stops everything after it, and that embedding's own error is returned. Otherwise the non-empty embeddings are upserted once if there are any. A failed upsert is returned. The document is then marked `ragProcessed` with the chunk count, or the missing document is reported. |
| RagSystem.Backend.WriteChunks | lib/ai/rag-system.ts:20-40 | The chunk loop writes the reached records, fails exactly when an embedding fails, with the error of the first one that fails, and otherwise returns the batch. |
| RagSystem.Backend.VectorSearch | lib/ai/rag-system.ts:74-109 | A failed neighbour search is an error. Otherwise the neighbours are hydrated from this company's chunks with the listed ids. |
| RagSystem.Backend.Search | lib/ai/rag-system.ts:60-72 | A failed embedding or a failed neighbour search gives no results. Otherwise the vector search result is returned. |
| RagSystem.Ids | lib/ai/rag-system.ts:88 | The ids list has one entry per neighbour, in order. |
| RagSystem.CompanyChunks | lib/ai/rag-system.ts:91-98 | The query returns exactly the stored chunks of the company whose ids were asked for. |
| RagSystem.HelloWorldIngest | __tests__/rag-system.test.ts:81-90 | Ingesting "Hello world" with embedding [0.1, 0.2] stores one record under `doc1_chunk_0` and upserts exactly that id and embedding. |
| RagSystem.HelloWorldSearch | __tests__/rag-system.test.ts:92-103 | A neighbour `doc1_chunk_0` with its chunk in `comp1` yields that chunk and the distance as score. |
| Processor.PlainPieces | lib/documents/processor.ts:47-50 | Plain-text chunk `i` is page `i + 1` with no images. |
| Processor.ReadContent | lib/documents/processor.ts:20-58 | Extraction fails on a missing URL, a fetch error, a non-OK response, a renderer error, an unsupported type or blank text, each with its message. Otherwise it returns the text and the chunks. |
| Processor.ChunkIdInjective | lib/documents/processor.ts:68 | Distinct chunk indices give distinct `-chunk-` ids. |
| Processor.VectorChunks | lib/documents/processor.ts:67-79 | One vector chunk per extracted chunk, with its id, text, index, page, company, title, category (absent when empty) and tags. |
| Processor.VectorChunkIdsDistinct | lib/documents/processor.ts:67-79 | No two vector chunks of a document share an id, and each carries its own index. |
| Processor.Expectations | lib/documents/processor.ts:169-180 | The batch results hold one entry per processed id. |
| Processor.ExpectationsAt | lib/documents/processor.ts:169-180 | Entry `k` of the batch is the success or the error that processing id `k` from its stored record gives. |
| Processor.DocumentStore.constructor | lib/documents/processor.ts:156-160 | The store starts with the given documents and listing order and no writes. |
| Processor.DocumentStore.ProcessDocument | lib/documents/processor.ts:8-149 | The result, the stored record, the status writes, the notices and the upserts are exactly those of the run's trace. Only this document changes. |
| Processor.DocumentStore.Store | lib/documents/processor.ts:60-115 | After extraction: the record is set to `processing` with the content, then the upsert runs. A failure makes the record `failed`. Success makes it `processed` with the chunk count and notifies the creator. A throwing notifier makes it `failed`. |
| Processor.DocumentStore.MarkFailed | lib/documents/processor.ts:116-145 | The catch block sets `failed` with the message and tells the creator when there is one and the notifier answers. |
| Processor.DocumentStore.ProcessOne | lib/documents/processor.ts:170-179 | One batch iteration returns the entry for the run's result or error. The document's record becomes the run's final record (unchanged when missing), and the iteration appends exactly the run's status writes, notices and upserts. |
| Processor.DocumentStore.ProcessCompanyDocuments | lib/documents/processor.ts:154-183 | Every selected document is processed once, in listing order, and a failure never stops the batch. Each entry is what processing the stored record gives. Every selected record ends as its run's final record, every other record is unchanged, and the writes, notices and upserts are those of the runs in order. |
| Processor.DocumentStore.ProcessAll | lib/documents/processor.ts:169-180 | The loop over distinct stored ids returns the expected entry for each, in order. Each visited record ends as its run's final record, the others are unchanged, and the effects are the runs' effects concatenated in order. |
| Processor.DocumentStore.Visit | lib/documents/processor.ts:169-180 | One loop iteration extends the results, the settled records and the effects by the next id's run. |
| Processor.SettledAll | lib/documents/processor.ts:169-180 | After the loop, every visited record is its run's final record and every other record is as stored. |
| Processor.SelectedIsFilter | lib/documents/processor.ts:156-160 | The selection is exactly the company's stored documents whose status is `pending`, `uploaded` or `failed`. |
| Processor.SelectedDistinct | lib/documents/processor.ts:156-165 | The selection lists each stored document at most once. |
| Processor.SettledStatus | lib/documents/processor.ts:95-131 | A stored document always ends `processed` when processing succeeds, or `failed` with the returned message when it fails. |
| Processor.ProcessingOnlyAfterText | lib/documents/processor.ts:56-65 | `processing` is written exactly when text was extracted. Otherwise the only write is `failed` and the content is kept. |
| Processor.SuccessCounts | lib/documents/processor.ts:82-115 | On success the stored count, the returned count and the upserted chunks all equal the number of chunks. `success` is the index's status being `success`. |
| Processor.EarlyErrors | lib/documents/processor.ts:14-22 | A missing document gives "Document not found". A document without a URL gives "Document has no file URL" and is marked `failed`. |
| Processor.UnsupportedType | lib/documents/processor.ts:51-54 | A file that is neither PDF nor plain text is rejected with its type named. |
| Processor.PlainTextChunks | lib/documents/processor.ts:45-50 | Plain text is chunked with 1000/200 and chunk `i` is page `i + 1` with no images. |
| Processor.PdfChunks | lib/documents/processor.ts:38-44 | For a PDF, the text is the joined page texts. Every chunk is a 1000/200 chunk of one page's text, with that page's number and images. |
| Processor.OthersUntouched | lib/documents/processor.ts:8-149 | Processing a document never changes another document's record. |
| CleanupDatabase.GroupByEmail | app/api/admin/cleanup-database/route.ts:17-23 | The reduce yields one key per distinct email in first-seen order, each mapped to its users in table order. |
| CleanupDatabase.GroupStep | app/api/admin/cleanup-database/route.ts:17-23 | One step of the reduce creates the email's group when it is new and appends the user to it. |
| CleanupDatabase.WithEmailExact | app/api/admin/cleanup-database/route.ts:17-23 | A group holds exactly the users with that email. |
| CleanupDatabase.EmailsExact | app/api/admin/cleanup-database/route.ts:17-23 | The keys are exactly the emails in use, each once. |
| CleanupDatabase.WithEmailAbsent | app/api/admin/cleanup-database/route.ts:18 | An email no user has has no group. |
| CleanupDatabase.SumSizesSnocUser | app/api/admin/cleanup-database/route.ts:21 | One more user adds one to the total size of the groups it belongs to. |
| CleanupDatabase.GroupSizesSum | app/api/admin/cleanup-database/route.ts:17-23 | The group sizes add up to the number of users: the grouping loses and repeats no one. |
| CleanupDatabase.DuplicatesExact | app/api/admin/cleanup-database/route.ts:25 | The duplicate entries are exactly the emails with more than one user, each with its whole group. |
| CleanupDatabase.FilterExact | app/api/admin/cleanup-database/route.ts:28-33 | A filter keeps exactly the users that pass, and never more than the table. |
| CleanupDatabase.SelectionsExact | app/api/admin/cleanup-database/route.ts:28-33 | The invalid users are exactly those whose Stack id is missing or starts with `migrated-`. The orphans are exactly those without a company. |
| CleanupDatabase.GenerateRecommendations | app/api/admin/cleanup-database/route.ts:77-101 | The pushes build `Recommendations(d, i, o)`. |
| CleanupDatabase.RecommendationsShape | app/api/admin/cleanup-database/route.ts:77-101 | There is one message per positive count, in the order duplicate, invalid, orphaned. The clean message appears alone exactly when no count is positive. |
| CleanupDatabase.Get | app/api/admin/cleanup-database/route.ts:10-75 | A failed read answers the 500 error with its message. Otherwise the answer is the report of the table. |
| CleanupDatabase.DuplicatesOf | app/api/admin/cleanup-database/route.ts:25 | The filter over the grouped entries gives the duplicate groups in key order. |
| CleanupDatabase.ReportConsistent | app/api/admin/cleanup-database/route.ts:35-62 | Each count equals the length of its list. The total is the sum of the group sizes. Each duplicate entry counts its users, and there are more than one. |
| Migration.FindFirst | lib/db/migrations/001_multi_tenant_migration.ts:76 | `find` succeeds exactly when some mapping has the key, and returns the first such mapping. |
| Migration.KeptIff | lib/db/migrations/001_multi_tenant_migration.ts:77-80 | A row survives the skip exactly when its parent was migrated. |
| Migration.KeptShorter | lib/db/migrations/001_multi_tenant_migration.ts:77-80 | Skipping never adds rows and keeps all rows when every parent was migrated. |
| Migration.Visibility | lib/db/migrations/001_multi_tenant_migration.ts:86 | `visibility \|\| 'private'`: a null or empty visibility becomes `private`, any other is kept. |
| Migration.OrEmpty | lib/db/migrations/001_multi_tenant_migration.ts:110 | `attachments \|\| []`: a falsy value becomes the empty list and a truthy one is kept. |
| Migration.TextPartsShape | lib/db/migrations/001_multi_tenant_migration.ts:124-129 | A deprecated message becomes one `text` part. String content is kept as is, and only other content goes through `JSON.stringify`. |
| Migration.UpgradedMigrates | lib/db/migrations/001_multi_tenant_migration.ts:131-137 | A deprecated message is inserted exactly as a current message carrying its text part and no attachments would be. |
| Migration.UserMappingsMeaning | lib/db/migrations/001_multi_tenant_migration.ts:47-68 | There is one new user per legacy user, in order. Each has the id `migrated-<legacy id>`, the default company, the legacy email, the `employee` role, no profile fields, active, and the next id. |
| Migration.ChatMappingsMeaning | lib/db/migrations/001_multi_tenant_migration.ts:71-91 | The chats migrated are exactly the legacy chats whose owner was migrated, in order. Each is owned by the first matching new user and takes the next id. |
| Migration.MigratedMessagesMeaning | lib/db/migrations/001_multi_tenant_migration.ts:96-113 | The messages migrated are exactly the rows whose chat was migrated, in order. Each is in the first matching new chat and takes the next id. |
| Migration.ConvertedAsMigrated | lib/db/migrations/001_multi_tenant_migration.ts:116-138 | Converting the deprecated rows inserts what migrating them as current messages would. |
| Migration.NewUsers | lib/db/migrations/001_multi_tenant_migration.ts:54-65 | The users inserted are the new side of each mapping, in order. |
| Migration.NewChats | lib/db/migrations/001_multi_tenant_migration.ts:82-88 | The chats inserted are the new side of each mapping, in order. |
| Migration.MigrateIs | lib/db/migrations/001_multi_tenant_migration.ts:37-141 | The migration's outcome is its five steps taken one after another. |
| Migration.Connection | lib/db/migrations/001_multi_tenant_migration.ts:25-29 | A connection string exists exactly when one of the two variables is set and non-empty. |
| Migration.UserKeys | lib/db/migrations/001_multi_tenant_migration.ts:76 | A chat's owner is found exactly when some legacy user has that id. |
| Migration.Counts | lib/db/migrations/001_multi_tenant_migration.ts:212-217 | The returned `migratedUsers` is the number of legacy users. `migratedChats` is the number of legacy chats whose owner is a legacy user. |
| Migration.MessageKeptIff | lib/db/migrations/001_multi_tenant_migration.ts:100-104 | A message is migrated exactly when its chat was migrated. |
| Migration.Integrity | lib/db/migrations/001_multi_tenant_migration.ts:54-137 | Every new user and chat is in the default company, every new chat is owned by a new user, and every new message lies in a new chat. |
| Migration.UsersInCompany | lib/db/migrations/001_multi_tenant_migration.ts:54-137 | Every new user belongs to the default company. |
| Migration.ChatsInCompany | lib/db/migrations/001_multi_tenant_migration.ts:54-137 | Every new chat is in the default company and owned by a new user. |
| Migration.MessagesInNewChats | lib/db/migrations/001_multi_tenant_migration.ts:54-137 | Every migrated message lies in a new chat. |
| Migration.DeprecatedInNewChats | lib/db/migrations/001_multi_tenant_migration.ts:54-137 | Every upgraded deprecated message lies in a new chat. |
| Migration.ConvertedInChats | lib/db/migrations/001_multi_tenant_migration.ts:119-138 | A deprecated message is inserted only into a chat that was migrated. |
| Migration.ChatsOwned | lib/db/migrations/001_multi_tenant_migration.ts:82-88 | Every new chat's owner is one of the new users. |
| Migration.MessagesInChats | lib/db/migrations/001_multi_tenant_migration.ts:106-112 | Every new message's chat is one of the new chats. |
| Migration.AppendFresh | lib/db/migrations/001_multi_tenant_migration.ts:38-137 | Appending consecutive fresh ids to ascending ids keeps them ascending. |
| Migration.MessageIdsFrom | lib/db/migrations/001_multi_tenant_migration.ts:96-138 | Current and converted messages take consecutive ids, in insertion order. |
| Migration.MigratedIds | lib/db/migrations/001_multi_tenant_migration.ts:98-113 | Migrated message `k` gets the `k`-th id drawn. |
| Migration.ConvertedIds | lib/db/migrations/001_multi_tenant_migration.ts:119-138 | Converted deprecated message `k` gets the `k`-th id drawn. |
| Migration.ConsecutiveIds | lib/db/migrations/001_multi_tenant_migration.ts:38-138 | The company, then the users, the chats and the messages take consecutive ids in insertion order. |
| Migration.UserIdsFrom | lib/db/migrations/001_multi_tenant_migration.ts:50-68 | The migrated users take consecutive ids. |
| Migration.ChatIdsFrom | lib/db/migrations/001_multi_tenant_migration.ts:74-91 | The migrated chats take consecutive ids. |
| Migration.FreshIds | lib/db/migrations/001_multi_tenant_migration.ts:38-138 | Every id inserted is new in its table, which stays in ascending order. |
| Migration.AppendOutcome | lib/db/migrations/001_multi_tenant_migration.ts:38-138 | Rows with consecutive ids from the next id keep every table ascending and fresh. |
| Migration.Database.constructor | lib/db/migrations/001_multi_tenant_migration.ts:31-32 | The legacy tables are as given and the new tables are empty. |
| Migration.Database.InsertCompany | lib/db/migrations/001_multi_tenant_migration.ts:38-44 | Step 2 inserts and returns the default company with the next id. |
| Migration.Database.MigrateUsers | lib/db/migrations/001_multi_tenant_migration.ts:47-68 | Step 3 returns `UserMappings` and appends its new users. |
| Migration.Database.MigrateChats | lib/db/migrations/001_multi_tenant_migration.ts:71-91 | Step 4 returns `ChatMappings` and appends its new chats. |
| Migration.Database.MigrateMessages | lib/db/migrations/001_multi_tenant_migration.ts:96-113 | Step 5 appends the migrated current messages. |
| Migration.Database.MigrateDeprecated | lib/db/migrations/001_multi_tenant_migration.ts:116-141 | A failed read of the deprecated table inserts nothing. Otherwise its rows are converted and appended. |
| Migration.Database.ConvertMessages | lib/db/migrations/001_multi_tenant_migration.ts:119-138 | The deprecated loop appends the converted messages. |
| Migration.Database.Steps | lib/db/migrations/001_multi_tenant_migration.ts:37-141 | Steps 2 to 5 insert exactly `Migrate`'s rows and return the company and the two mapping lists. |
| Migration.Database.RunMigration | lib/db/migrations/001_multi_tenant_migration.ts:24-217 | Without a connection string it fails and changes nothing. Otherwise it inserts `Migrate`'s rows with fresh ids and returns success, the company id and the two counts. |

## Left out

- The PDF renderer is a parameter that yields pages of text items and operators with images already resolved. pdfjs and `page.objs.get` are not part of this model.
- The PNG encoding and the base64 data-URI step form one encoder parameter, applied to the pixel bytes.
- The embedding model, the nearest-neighbour search, the download, the text decoder and the index's two upsert services are function parameters. They succeed or fail as those functions say. Firestore reads and writes always succeed, as the lines below name member by member.
- `splitIntoChunks` and `keywordSearch` of `RAGSystem` are not part of this model. Their code is not in the source file, and the splitter is a parameter.
- Timestamps (`serverTimestamp`, `processedAt`, `createdAt` defaults) and console logging are not modelled.
- Firestore's limit of 30 values in an `in` query is not modelled.
- RagSystem.CompanyChunks: selects the records whose document id is among the requested ids, where the query's `where('id', 'in', chunkIds)` (rag-system.ts 94) tests the record's `id` field. The two agree for every record `processDocument` writes, whose `id` field is its document id.
- RagSystem.Backend.Search: takes `limit` as an argument. Callers pass 5 where the source relies on the default `limit = 5` (rag-system.ts 63).
- Strings are sequences of characters. `length` is counted in characters, not UTF-16 code units.
- The white-space classes of the regular expressions and `trim` are one predicate, `IsSpace`: exactly ECMAScript's WhiteSpace and LineTerminator code points, the set both `\s` and `trim` use.
- The first replace (`/\n\s*\n/g`) is not modelled separately, because the `/\s+/g` replace after it subsumes it.
- Processor.DocumentStore.ProcessDocument: the two identical `upsertDocumentChunks` calls at processor.ts 82-88 are modelled as one call. The second `const` declaration would not compile as written.
- `notificationService` is not imported in processor.ts. The model gives the store a `notifierUp` flag, and a notifier that throws is the case where it is false. The error message of that throw is a fixed text.
- A document's falsy `fileUrl`, `category` and `createdBy` are the empty string, and missing `tags` are the empty list.
- `processCompanyDocuments`' query order is the store's `order` field. Documents changed by other writers during the batch are not modelled.
- CleanupDatabase.GroupByEmail: keys are in first-insertion order. `Object.entries` puts integer-like keys first, and a key such as `__proto__` behaves differently; neither is modelled.
- The database read of the audit either succeeds with the whole table or fails with a message. A null email is not modelled.
- Migration: `runMigration`'s vote step (143-156), the row-level security statements (158-203), the unused count queries (207-209), `rollbackMigration` (228-258) and the command-line entry (260-269) are not part of this model.
- Migration: a failed insert and the rethrow at 219-221 are not modelled. Inserts always succeed.
- Migration.Database.MigrateDeprecated: only a failed read of the deprecated table is modelled (as no rows). A failed insert part-way through the loop, which the same `catch` swallows, is not modelled.
- RagSystem.Backend.WriteChunks: the Firestore `set` of each chunk record (rag-system.ts 35) always succeeds. Only the embedding call can fail part-way through the loop.
- RagSystem.Backend.ProcessDocument: the final `update` of the document (rag-system.ts 47-51) succeeds whenever the document exists. A Firestore error other than a missing document is not modelled.
- Processor.DocumentStore.Store: the `processing` and `processed` updates (processor.ts 61-65 and 96-100) always succeed. Only the upsert can fail.
- Processor.DocumentStore.MarkFailed: the `failed` update of the catch block (processor.ts 118-128) always succeeds. Its own swallowed error is not modelled.
- Processor.DocumentStore.ProcessDocument: the Firestore `get` of the document (processor.ts 12) always succeeds. A thrown read, which the catch at 116-147 answers with a `failed` write, no notice and a rethrow, is not modelled.
- Processor.DocumentStore.ProcessCompanyDocuments: the company query (processor.ts 156-160) always succeeds. A thrown query, with which the batch rejects before processing any document, is not modelled.
- RagSystem.Backend.VectorSearch: the Firestore query for the neighbours' chunk records (rag-system.ts 91-95) always succeeds. Only the nearest-neighbour search can fail.
- RagSystem.Backend.Search: because the chunk query always succeeds, the `[]` its catch (rag-system.ts 68-71) returns for a thrown query is reached only through a failed query embedding or nearest-neighbour search.
- Migration: database ids (uuids) are drawn from one counter, `nextId`, shared by all tables.
- Migration: `JSON.stringify` is a parameter. JSON numbers are integers.
