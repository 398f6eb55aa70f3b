/** `parsePdf` and `chunkPdf` of lib/documents/pdf-parser.ts. The PDF renderer is
    not modelled: a document is given as its pages, each with the strings of its
    text items and its operator list with the image objects already resolved. The
    PNG encoder and the base64 data-URI step are one function parameter. */
module PdfParser {
  import opened TextUtil
  import Chunker

  type byte = b: int | 0 <= b < 256

  /** The pixel layouts pdfjs reports for decoded images. */
  datatype ImageKind = Grayscale1Bpp | Rgb24Bpp | Rgba32Bpp

  datatype Image = Image(kind: ImageKind, width: nat, height: nat, data: seq<byte>)

  /** An entry of a page's operator list; for `paintImageXObject` the image is the
      one `page.objs.get` resolves its name to. */
  datatype Op = PaintImageXObject(img: Image) | PaintInlineImageXObject(img: Image) | OtherOp

  /** What the renderer yields for one page. */
  datatype PageSource = PageSource(items: seq<string>, ops: seq<Op>)

  datatype ParsedPage = ParsedPage(pageNumber: nat, text: string, images: seq<string>)

  /** An entry of the document-wide image list: the data URI and its page. */
  datatype TaggedImage = TaggedImage(page: nat, data: string)

  /** `metadata.pages` is `pageCount`. */
  datatype ParsedPdf = ParsedPdf(text: string, pages: seq<ParsedPage>, images: seq<TaggedImage>, pageCount: nat)

  /** The PNG encoder followed by the data-URI step: width, height and the pixel
      bytes in, `data:image/png;base64,...` out. */
  type Encoder = (nat, nat, seq<byte>) -> string

  // ---------------------------------------------------------------------------
  // RGB to RGBA expansion

  /** Reading past the end of a `Uint8Array` gives `undefined`, which a `Buffer`
      stores as 0. */
  function At(src: seq<byte>, i: nat): byte {
    if i < |src| then src[i] else 0
  }

  /** Byte `i` of the RGBA buffer: untouched (0) when the loop never reaches its
      pixel, 255 for the alpha channel, and the matching source byte otherwise. */
  function RgbaByte(src: seq<byte>, i: nat): byte {
    var q := i / 4;
    if 3 * q >= |src| then 0
    else if i % 4 == 3 then 255
    else At(src, 3 * q + i % 4)
  }

  /** The RGBA buffer of `n` bytes that the expansion loop fills. */
  function Expanded(src: seq<byte>, n: nat): (r: seq<byte>)
    ensures |r| == n
  {
    seq(n, i requires 0 <= i < n => RgbaByte(src, i))
  }

  /** The loop `for (k = 0, p = 0; k < imgBuffer.length; k += 3, p += 4)` over a
      zero-filled buffer of `width * height * 4` bytes. Writes past the end of a
      `Buffer` are ignored. */
  method ExpandRgb(src: seq<byte>, width: nat, height: nat) returns (rgba: array<byte>)
    ensures fresh(rgba)
    ensures rgba[..] == Expanded(src, width * height * 4)
  {
    var n := width * height * 4;
    rgba := new byte[n](_ => 0);
    var k, p := 0, 0;
    while k < |src|
      invariant p % 4 == 0 && k == 3 * (p / 4)
      invariant p > 0 ==> 3 * (p / 4 - 1) < |src|
      invariant rgba.Length == n && Filled(rgba[..], src, p)
      decreases |src| - k
    {
      ghost var before := rgba[..];
      WritePixel(rgba, src, k, p);
      FilledStep(before, rgba[..], src, k, p);
      k, p := k + 3, p + 4;
    }
    FilledAll(rgba[..], src, k, p);
  }

  /** The first `p` bytes of the buffer hold their RGBA value and the rest are 0. */
  ghost predicate Filled(rgba: seq<byte>, src: seq<byte>, p: nat) {
    forall i :: 0 <= i < |rgba| ==> rgba[i] == if i < p then RgbaByte(src, i) else 0
  }

  /** A pixel write moves the filled prefix on by one pixel. */
  lemma {:induction false} FilledStep(before: seq<byte>, after: seq<byte>, src: seq<byte>, k: nat, p: nat)
    requires p % 4 == 0 && k == 3 * (p / 4) && k < |src|
    requires Filled(before, src, p) && |after| == |before|
    requires forall i :: 0 <= i < |after| ==> after[i] == if p <= i < p + 4 then RgbaByte(src, i) else before[i]
    ensures (p + 4) % 4 == 0 && k + 3 == 3 * ((p + 4) / 4) && 3 * ((p + 4) / 4 - 1) < |src|
    ensures Filled(after, src, p + 4)
  {
  }

  /** Once the source is consumed, the bytes past the filled prefix are those no
      pixel reaches, which are 0 in the expansion too. */
  lemma {:induction false} FilledAll(rgba: seq<byte>, src: seq<byte>, k: nat, p: nat)
    requires p % 4 == 0 && k == 3 * (p / 4) && k >= |src|
    requires Filled(rgba, src, p)
    ensures rgba == Expanded(src, |rgba|)
  {
    forall i | 0 <= i < |rgba| ensures rgba[i] == RgbaByte(src, i) {
      if i >= p {
        assert 3 * (i / 4) >= k;
      }
    }
  }

  /** One iteration of the expansion loop: bytes `p` to `p + 3` that fall inside
      the buffer get pixel `p / 4`; nothing else changes. */
  method WritePixel(rgba: array<byte>, src: seq<byte>, k: nat, p: nat)
    requires p % 4 == 0 && k == 3 * (p / 4) && k < |src|
    modifies rgba
    ensures forall i :: 0 <= i < rgba.Length ==>
      rgba[i] == if p <= i < p + 4 then RgbaByte(src, i) else old(rgba[i])
  {
    var n := rgba.Length;
    if p < n {
      rgba[p] := At(src, k);
    }
    if p + 1 < n {
      rgba[p + 1] := At(src, k + 1);
    }
    if p + 2 < n {
      rgba[p + 2] := At(src, k + 2);
    }
    if p + 3 < n {
      rgba[p + 3] := 255;
    }
    forall i | p <= i < p + 4 && i < n ensures rgba[i] == RgbaByte(src, i) {
      assert i / 4 == p / 4 && i % 4 == i - p;
    }
  }

  /** With exactly three bytes per pixel, pixel `q` of the output is the three
      source bytes of pixel `q` followed by an opaque alpha of 255. */
  lemma {:induction false} ExpandedPixel(src: seq<byte>, width: nat, height: nat, q: nat)
    requires |src| == 3 * (width * height) && q < width * height
    ensures var r := Expanded(src, width * height * 4);
      r[4 * q..4 * q + 4] == src[3 * q..3 * q + 3] + [255]
  {
    var r := Expanded(src, width * height * 4);
    forall i | 4 * q <= i < 4 * q + 4 ensures r[i] == (src[3 * q..3 * q + 3] + [255])[i - 4 * q] {
      assert i / 4 == q && i % 4 == i - 4 * q;
    }
  }

  /** Pixels past the end of a short source stay black and transparent, and source
      bytes beyond the buffer's pixels are dropped. */
  lemma {:induction false} ExpandedPastSource(src: seq<byte>, n: nat, i: nat)
    requires i < n && 3 * (i / 4) >= |src|
    ensures Expanded(src, n)[i] == 0
  {
  }

  // ---------------------------------------------------------------------------
  // The page loop

  /** `textContent.items.map(item => item.str).join(' ')`. */
  function PageText(page: PageSource): string {
    Join(page.items, " ")
  }

  /** The bytes handed to the PNG encoder: RGB images are expanded to RGBA, every
      other kind is passed through. */
  function PixelBytes(img: Image): seq<byte> {
    if img.kind == Rgb24Bpp then Expanded(img.data, img.width * img.height * 4) else img.data
  }

  function IsImageOp(op: Op): bool {
    op.PaintImageXObject? || op.PaintInlineImageXObject?
  }

  function ImageUri(img: Image, encode: Encoder): string {
    encode(img.width, img.height, PixelBytes(img))
  }

  /** The data URIs of a page's image operators, in operator order. */
  function PageImages(ops: seq<Op>, encode: Encoder): seq<string>
    decreases |ops|
  {
    if ops == [] then []
    else
      var last := ops[|ops| - 1];
      PageImages(ops[..|ops| - 1], encode) + (if IsImageOp(last) then [ImageUri(last.img, encode)] else [])
  }

  /** The document text after the first `n` pages: `text += (text ? '\n' : '') + pageText`. */
  function DocText(doc: seq<PageSource>): string
    decreases |doc|
  {
    if doc == [] then []
    else
      var text := DocText(doc[..|doc| - 1]);
      text + (if text != [] then "\n" else "") + PageText(doc[|doc| - 1])
  }

  function Tag(page: nat, uris: seq<string>): (r: seq<TaggedImage>)
    ensures |r| == |uris|
    ensures forall j :: 0 <= j < |r| ==> r[j] == TaggedImage(page, uris[j])
  {
    if uris == [] then [] else [TaggedImage(page, uris[0])] + Tag(page, uris[1..])
  }

  /** The document-wide image list after the first `n` pages. */
  function DocImages(doc: seq<PageSource>, encode: Encoder): seq<TaggedImage>
    decreases |doc|
  {
    if doc == [] then []
    else DocImages(doc[..|doc| - 1], encode) + Tag(|doc|, PageImages(doc[|doc| - 1].ops, encode))
  }

  /** The inner loop over a page's operator list. */
  method CollectImages(ops: seq<Op>, pageNumber: nat, encode: Encoder, images0: seq<TaggedImage>)
      returns (images: seq<TaggedImage>, pageImages: seq<string>)
    ensures pageImages == PageImages(ops, encode)
    ensures images == images0 + Tag(pageNumber, pageImages)
  {
    images, pageImages := images0, [];
    var j := 0;
    while j < |ops|
      invariant 0 <= j <= |ops|
      invariant pageImages == PageImages(ops[..j], encode)
      invariant images == images0 + Tag(pageNumber, pageImages)
    {
      var op := ops[j];
      PageImagesStep(ops, j, encode);
      if op.PaintImageXObject? || op.PaintInlineImageXObject? {
        var dataUrl := EncodeImage(op.img, encode);
        images := images + [TaggedImage(pageNumber, dataUrl)];
        TagSnoc(pageNumber, pageImages, dataUrl);
        pageImages := pageImages + [dataUrl];
      }
      j := j + 1;
    }
    assert ops[..j] == ops;
  }

  /** The body of the operator loop for an image operator: RGB pixels are expanded
      to RGBA in a fresh buffer, and the pixels are encoded as a data URI. */
  method EncodeImage(img: Image, encode: Encoder) returns (dataUrl: string)
    ensures dataUrl == ImageUri(img, encode)
  {
    var imgBuffer := img.data;
    if img.kind == Rgb24Bpp {
      var rgba := ExpandRgb(imgBuffer, img.width, img.height);
      imgBuffer := rgba[..];
    }
    dataUrl := encode(img.width, img.height, imgBuffer);
  }

  /** One more operator adds its URI when it paints an image. */
  lemma {:induction false} PageImagesStep(ops: seq<Op>, j: nat, encode: Encoder)
    requires j < |ops|
    ensures PageImages(ops[..j + 1], encode)
      == PageImages(ops[..j], encode) + (if IsImageOp(ops[j]) then [ImageUri(ops[j].img, encode)] else [])
  {
    assert ops[..j + 1][..j] == ops[..j];
  }

  lemma {:induction false} TagSnoc(page: nat, uris: seq<string>, u: string)
    ensures Tag(page, uris + [u]) == Tag(page, uris) + [TaggedImage(page, u)]
  {
  }

  /** The pages `parsePdf` returns: numbered from 1 in document order, each with
      its own text and image URIs. */
  function ParsedPages(doc: seq<PageSource>, encode: Encoder): (r: seq<ParsedPage>)
    ensures |r| == |doc|
    ensures forall i :: 0 <= i < |doc| ==>
      r[i] == ParsedPage(i + 1, PageText(doc[i]), PageImages(doc[i].ops, encode))
  {
    seq(|doc|, i requires 0 <= i < |doc| => ParsedPage(i + 1, PageText(doc[i]), PageImages(doc[i].ops, encode)))
  }

  /** `parsePdf` after the document has been opened: pages are numbered from 1 in
      order, each keeps its own text and images, the images are also listed
      document-wide with their page number, and `metadata.pages` is the page
      count. */
  method ParsePdf(doc: seq<PageSource>, encode: Encoder) returns (r: ParsedPdf)
    ensures r.pageCount == |doc| && r.pages == ParsedPages(doc, encode)
    ensures r.text == DocText(doc)
    ensures r.images == DocImages(doc, encode)
  {
    var pages: seq<ParsedPage> := [];
    var images: seq<TaggedImage> := [];
    var text: string := [];
    var i := 1;
    while i <= |doc|
      invariant 1 <= i <= |doc| + 1
      invariant pages == ParsedPages(doc[..i - 1], encode)
      invariant text == DocText(doc[..i - 1])
      invariant images == DocImages(doc[..i - 1], encode)
    {
      DocStep(doc, i, encode);
      var page := doc[i - 1];
      var pageText := Join(page.items, " ");
      text := text + (if text != [] then "\n" else "") + pageText;
      var pageImages;
      images, pageImages := CollectImages(page.ops, i, encode, images);
      pages := pages + [ParsedPage(i, pageText, pageImages)];
      i := i + 1;
    }
    assert doc[..|doc|] == doc;
    r := ParsedPdf(text, pages, images, |doc|);
  }

  /** One more page extends the pages, the document text and the document-wide
      images. */
  lemma {:induction false} DocStep(doc: seq<PageSource>, i: nat, encode: Encoder)
    requires 1 <= i <= |doc|
    ensures ParsedPages(doc[..i], encode)
      == ParsedPages(doc[..i - 1], encode) + [ParsedPage(i, PageText(doc[i - 1]), PageImages(doc[i - 1].ops, encode))]
    ensures var text := DocText(doc[..i - 1]);
      DocText(doc[..i]) == text + (if text != [] then "\n" else "") + PageText(doc[i - 1])
    ensures DocImages(doc[..i], encode) == DocImages(doc[..i - 1], encode) + Tag(i, PageImages(doc[i - 1].ops, encode))
  {
    assert doc[..i][..i - 1] == doc[..i - 1];
  }

  // ---------------------------------------------------------------------------
  // What the page loop promises

  /** Page texts with the leading empty ones dropped. */
  function SkipEmpty(ts: seq<string>): (r: seq<string>)
    ensures r == [] || r[0] != []
  {
    if ts == [] then []
    else if ts[0] == [] then SkipEmpty(ts[1..])
    else ts
  }

  function PageTexts(doc: seq<PageSource>): (r: seq<string>)
    ensures |r| == |doc| && forall i :: 0 <= i < |doc| ==> r[i] == PageText(doc[i])
  {
    seq(|doc|, i requires 0 <= i < |doc| => PageText(doc[i]))
  }

  lemma {:induction false} SkipEmptySnoc(ts: seq<string>, t: string)
    ensures SkipEmpty(ts + [t]) == if SkipEmpty(ts) == [] then (if t == [] then [] else [t]) else SkipEmpty(ts) + [t]
    decreases |ts|
  {
    if ts != [] {
      assert (ts + [t])[1..] == ts[1..] + [t];
      SkipEmptySnoc(ts[1..], t);
    }
  }

  /** A newline goes in front of a page's text only once the text is non-empty:
      the document text is the page texts joined with newlines, from the first
      non-empty one on. */
  lemma {:induction false} DocTextJoin(doc: seq<PageSource>)
    ensures DocText(doc) == Join(SkipEmpty(PageTexts(doc)), "\n")
    decreases |doc|
  {
    if doc != [] {
      var n := |doc|;
      var init := doc[..n - 1];
      DocTextJoin(init);
      PageTextsSnoc(doc);
      JoinSkipEmptySnoc(PageTexts(init), PageText(doc[n - 1]));
    }
  }

  lemma {:induction false} PageTextsSnoc(doc: seq<PageSource>)
    requires doc != []
    ensures PageTexts(doc) == PageTexts(doc[..|doc| - 1]) + [PageText(doc[|doc| - 1])]
  {
    assert PageTexts(doc)[..|doc| - 1] == PageTexts(doc[..|doc| - 1]);
  }

  /** Joining the non-empty-from-the-first texts with one more text appended. */
  lemma {:induction false} JoinSkipEmptySnoc(ts: seq<string>, t: string)
    ensures var j := Join(SkipEmpty(ts), "\n");
      Join(SkipEmpty(ts + [t]), "\n") == j + (if j != [] then "\n" else "") + t
  {
    SkipEmptySnoc(ts, t);
    var s := SkipEmpty(ts);
    JoinSnoc(s, t, "\n");
    if s != [] {
      JoinNonEmpty(s, "\n");
    }
  }

  lemma {:induction false} JoinNonEmpty(ws: seq<string>, sep: string)
    requires ws != [] && ws[0] != []
    ensures Join(ws, sep) != []
  {
  }

  /** The document-wide list is the pages' lists in page order: image `j` of page
      `i` (counting from 0) is entry `|DocImages(doc[..i])| + j`, tagged with page
      number `i + 1`; there is nothing else. */
  lemma {:induction false} DocImagesIndex(doc: seq<PageSource>, encode: Encoder, i: nat, j: nat)
    requires i < |doc| && j < |PageImages(doc[i].ops, encode)|
    ensures |DocImages(doc[..i], encode)| + j < |DocImages(doc, encode)|
    ensures DocImages(doc, encode)[|DocImages(doc[..i], encode)| + j]
      == TaggedImage(i + 1, PageImages(doc[i].ops, encode)[j])
    decreases |doc|
  {
    var n := |doc|;
    var init := doc[..n - 1];
    if i < n - 1 {
      assert init[..i] == doc[..i] && init[i] == doc[i];
      DocImagesIndex(init, encode, i, j);
    } else {
      assert doc[..i] == init;
    }
  }

  /** The document-wide list holds exactly as many entries as the pages' lists. */
  lemma {:induction false} DocImagesCount(doc: seq<PageSource>, encode: Encoder)
    ensures |DocImages(doc, encode)| == ImageCount(doc, encode)
    decreases |doc|
  {
    if doc != [] {
      DocImagesCount(doc[..|doc| - 1], encode);
    }
  }

  function ImageCount(doc: seq<PageSource>, encode: Encoder): nat
    decreases |doc|
  {
    if doc == [] then 0 else ImageCount(doc[..|doc| - 1], encode) + |PageImages(doc[|doc| - 1].ops, encode)|
  }

  /** Every entry of the document-wide list is an image of the page it names. */
  lemma {:induction false} DocImagesTagged(doc: seq<PageSource>, encode: Encoder, k: nat)
    requires k < |DocImages(doc, encode)|
    ensures var e := DocImages(doc, encode)[k];
      1 <= e.page <= |doc| && e.data in PageImages(doc[e.page - 1].ops, encode)
    decreases |doc|
  {
    var n := |doc|;
    var init := doc[..n - 1];
    if k < |DocImages(init, encode)| {
      DocImagesTagged(init, encode, k);
      var e := DocImages(init, encode)[k];
      assert DocImages(doc, encode)[k] == e;
      assert doc[e.page - 1] == init[e.page - 1];
    } else {
      DocImagesTaggedLast(doc, encode, k);
    }
  }

  /** An entry past the earlier pages' images is one of the last page's. */
  lemma {:induction false} DocImagesTaggedLast(doc: seq<PageSource>, encode: Encoder, k: nat)
    requires doc != [] && |DocImages(doc[..|doc| - 1], encode)| <= k < |DocImages(doc, encode)|
    ensures DocImages(doc, encode)[k] in Tag(|doc|, PageImages(doc[|doc| - 1].ops, encode))
    ensures var e := DocImages(doc, encode)[k];
      e.page == |doc| && e.data in PageImages(doc[|doc| - 1].ops, encode)
  {
    var uris := PageImages(doc[|doc| - 1].ops, encode);
    var before := DocImages(doc[..|doc| - 1], encode);
    assert DocImages(doc, encode)[k] == TaggedImage(|doc|, uris[k - |before|]);
  }

  // ---------------------------------------------------------------------------
  // chunkPdf

  /** One element of `chunkPdf`'s result. */
  datatype Piece = Piece(text: string, pageNumber: nat, images: seq<string>)

  /** The pieces of one page, for a chunker `chunk`. */
  function PagePieces(page: ParsedPage, chunk: string -> seq<string>): (r: seq<Piece>)
    ensures |r| == |chunk(page.text)|
    ensures forall j :: 0 <= j < |r| ==> r[j] == Piece(chunk(page.text)[j], page.pageNumber, page.images)
  {
    var texts := chunk(page.text);
    seq(|texts|, j requires 0 <= j < |texts| => Piece(texts[j], page.pageNumber, page.images))
  }

  /** `pages.flatMap(page => chunk(page.text).map(...))`. */
  function FlatPieces(pages: seq<ParsedPage>, chunk: string -> seq<string>): seq<Piece>
    decreases |pages|
  {
    if pages == [] then [] else FlatPieces(pages[..|pages| - 1], chunk) + PagePieces(pages[|pages| - 1], chunk)
  }

  /** `chunkText` with fixed options, as the chunker `chunkPdf` hands to each page. */
  function TextChunker(opts: Chunker.Options): string -> seq<string> {
    t => Chunker.Chunks(t, opts)
  }

  /** `chunkPdf(parsed, options)`: `chunkText` applied page by page. */
  function ChunkPdf(pages: seq<ParsedPage>, opts: Chunker.Options): seq<Piece> {
    FlatPieces(pages, TextChunker(opts))
  }

  lemma {:induction false} FlatPiecesIndex(pages: seq<ParsedPage>, chunk: string -> seq<string>, i: nat, j: nat)
    requires i < |pages| && j < |chunk(pages[i].text)|
    ensures |FlatPieces(pages[..i], chunk)| + j < |FlatPieces(pages, chunk)|
    ensures FlatPieces(pages, chunk)[|FlatPieces(pages[..i], chunk)| + j]
      == Piece(chunk(pages[i].text)[j], pages[i].pageNumber, pages[i].images)
    decreases |pages|
  {
    var n := |pages|;
    var init := pages[..n - 1];
    if i < n - 1 {
      assert init[..i] == pages[..i] && init[i] == pages[i];
      FlatPiecesIndex(init, chunk, i, j);
    } else {
      assert pages[..i] == init;
    }
  }

  lemma {:induction false} FlatPiecesFromOnePage(pages: seq<ParsedPage>, chunk: string -> seq<string>, k: nat) returns (i: nat, j: nat)
    requires k < |FlatPieces(pages, chunk)|
    ensures i < |pages| && j < |chunk(pages[i].text)|
    ensures FlatPieces(pages, chunk)[k] == Piece(chunk(pages[i].text)[j], pages[i].pageNumber, pages[i].images)
    decreases |pages|
  {
    var n := |pages|;
    var init := pages[..n - 1];
    var before := FlatPieces(init, chunk);
    if k < |before| {
      i, j := FlatPiecesFromOnePage(init, chunk, k);
      assert init[i] == pages[i];
    } else {
      i, j := n - 1, k - |before|;
    }
  }

  /** `FlatPiecesIndex` for the chunker `chunkPdf` uses. */
  lemma {:induction false} ChunkPdfIndexByChunker(pages: seq<ParsedPage>, opts: Chunker.Options, i: nat, j: nat)
    requires i < |pages| && j < |TextChunker(opts)(pages[i].text)|
    ensures |ChunkPdf(pages[..i], opts)| + j < |ChunkPdf(pages, opts)|
    ensures ChunkPdf(pages, opts)[|ChunkPdf(pages[..i], opts)| + j]
      == Piece(TextChunker(opts)(pages[i].text)[j], pages[i].pageNumber, pages[i].images)
  {
    var chunk := TextChunker(opts);
    FlatPiecesIndex(pages, chunk, i, j);
    assert ChunkPdf(pages, opts) == FlatPieces(pages, chunk);
    assert ChunkPdf(pages[..i], opts) == FlatPieces(pages[..i], chunk);
  }

  /** Chunk `j` of page `i` is piece `|ChunkPdf(pages[..i])| + j`, with that page's
      number and its whole image list. */
  lemma {:induction false} ChunkPdfIndex(pages: seq<ParsedPage>, opts: Chunker.Options, i: nat, j: nat)
    requires i < |pages| && j < |Chunker.Chunks(pages[i].text, opts)|
    ensures |ChunkPdf(pages[..i], opts)| + j < |ChunkPdf(pages, opts)|
    ensures ChunkPdf(pages, opts)[|ChunkPdf(pages[..i], opts)| + j]
      == Piece(Chunker.Chunks(pages[i].text, opts)[j], pages[i].pageNumber, pages[i].images)
  {
    assert TextChunker(opts)(pages[i].text) == Chunker.Chunks(pages[i].text, opts);
    ChunkPdfIndexByChunker(pages, opts, i, j);
  }

  /** No piece spans two pages: each one is a chunk of a single page's text and
      carries that page's number and images. */
  lemma {:induction false} ChunkPdfFromOnePage(pages: seq<ParsedPage>, opts: Chunker.Options, k: nat) returns (i: nat, j: nat)
    requires k < |ChunkPdf(pages, opts)|
    ensures i < |pages| && j < |Chunker.Chunks(pages[i].text, opts)|
    ensures ChunkPdf(pages, opts)[k] == Piece(Chunker.Chunks(pages[i].text, opts)[j], pages[i].pageNumber, pages[i].images)
  {
    var chunk := TextChunker(opts);
    i, j := FlatPiecesFromOnePage(pages, chunk, k);
    assert chunk(pages[i].text) == Chunker.Chunks(pages[i].text, opts);
  }
}
