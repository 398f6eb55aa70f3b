/** `chunkText` of lib/documents/pdf-parser.ts: white space is normalised, the text
    is split into sentences after `.`, `!` or `?`, and sentences are accumulated into
    chunks under a size budget, each new chunk being seeded with trailing words of
    the chunk just closed. */
module Chunker {
  import opened TextUtil

  /** `{ maxChunkSize, overlapSize }`. Both are whole numbers in every caller. */
  datatype Options = Options(maxChunkSize: int, overlapSize: int)

  // ---------------------------------------------------------------------------
  // White-space normalisation: `.replace(/\n\s*\n/g, '\n\n').replace(/\s+/g, ' ').trim()`

  /** `.replace(/\s+/g, ' ')`: every maximal run of white space becomes one space;
      the string is white space only exactly when the result is. */
  function Collapse(s: string): (r: string)
    ensures |r| <= |s|
    ensures s != [] ==> r != [] && r[0] == (if IsSpace(s[0]) then ' ' else s[0])
    ensures AllSpace(r) <==> AllSpace(s)
    decreases |s|
  {
    if s == [] then []
    else if IsSpace(s[0]) then
      var t := TrimStart(s);
      assert AllSpace(s) <==> AllSpace(t) by {
        assert forall i :: |s| - |t| <= i < |s| ==> s[i] == t[i - (|s| - |t|)];
      }
      AllSpaceConcat(" ", Collapse(t));
      " " + Collapse(t)
    else [s[0]] + Collapse(s[1..])
  }

  /** The normalised text: no white space but single interior spaces. */
  function CleanText(text: string): string {
    Trim(Collapse(text))
  }

  /** Text in normal form: every white-space character is a space that is neither
      first nor last and is followed by a non-space. */
  ghost predicate Normal(t: string) {
    (forall i :: 0 <= i < |t| && IsSpace(t[i]) ==> t[i] == ' ' && 0 < i < |t| - 1)
    && NoDoubleSpace(t)
  }

  /** No two white-space characters side by side. */
  ghost predicate NoDoubleSpace(t: string) {
    forall i, j :: 0 <= i && j == i + 1 && j < |t| ==> !(IsSpace(t[i]) && IsSpace(t[j]))
  }

  // ---------------------------------------------------------------------------
  // Sentence split: `cleanText.split(/(?<=[.!?])\s+/)`

  predicate EndsSentence(c: char) {
    c == '.' || c == '!' || c == '?'
  }

  /** The split scanning `t`, with `cur` the sentence read so far: a maximal run of
      white space directly after `.`, `!` or `?` ends a sentence and is dropped. */
  function SplitFrom(t: string, cur: string): (r: seq<string>)
    ensures |r| >= 1
    decreases |t|
  {
    if t == [] then [cur]
    else if IsSpace(t[0]) && cur != [] && EndsSentence(cur[|cur| - 1]) then
      var rest := TrimStart(t);
      [cur] + SplitFrom(rest, [])
    else SplitFrom(t[1..], cur + [t[0]])
  }

  function SplitSentences(t: string): seq<string> {
    SplitFrom(t, [])
  }

  // ---------------------------------------------------------------------------
  // The accumulation loop

  /** The loop's variables: `chunks`, `current` and `size`. */
  datatype Acc = Acc(chunks: seq<string>, current: string, size: int)

  /** `current.split(' ').slice(-Math.floor(overlapSize / 10)).join(' ')`. The divisor
      is positive, so Dafny's `/` is the floor division of `Math.floor`. */
  function Overlap(current: string, overlapSize: int): string {
    Join(SliceFrom(SplitOn(current, ' '), -(overlapSize / 10)), " ")
  }

  /** One iteration of the `for (const sentence of sentences)` loop. The budget
      test reads `size`, which counts the sentences' characters but not the spaces
      that join them. */
  function Step(acc: Acc, sentence: string, opts: Options): Acc {
    if acc.size + |sentence| > opts.maxChunkSize && acc.current != [] then
      var next := Overlap(acc.current, opts.overlapSize) + " " + sentence;
      Acc(acc.chunks + [Trim(acc.current)], next, |next|)
    else
      Acc(acc.chunks, acc.current + (if acc.current != [] then " " else "") + sentence,
          acc.size + |sentence|)
  }

  /** The loop's variables once it has gone through `sentences`, from the start. */
  function Run(sentences: seq<string>, opts: Options): Acc
    decreases |sentences|
  {
    if sentences == [] then InitialAcc()
    else Step(Run(sentences[..|sentences| - 1], opts), sentences[|sentences| - 1], opts)
  }

  /** After the loop: the last chunk is pushed only when it is non-empty once trimmed. */
  function Finish(acc: Acc): seq<string> {
    if Trim(acc.current) != [] then acc.chunks + [Trim(acc.current)] else acc.chunks
  }

  function InitialAcc(): Acc {
    Acc([], [], 0)
  }

  /** What `chunkText(text, options)` returns. */
  function Chunks(text: string, opts: Options): seq<string> {
    Finish(Run(SplitSentences(CleanText(text)), opts))
  }

  /** `chunkText`: normalise, split into sentences, and accumulate. */
  method ChunkText(text: string, opts: Options) returns (chunks: seq<string>)
    ensures chunks == Chunks(text, opts)
  {
    var sentences := SplitSentences(CleanText(text));
    chunks := Accumulate(sentences, opts);
  }

  /** The `for (const sentence of sentences)` loop of `chunkText` and the push of
      the last chunk after it. */
  method Accumulate(sentences: seq<string>, opts: Options) returns (chunks: seq<string>)
    ensures chunks == Finish(Run(sentences, opts))
  {
    chunks := [];
    var current: string := [];
    var size: int := 0;
    var i := 0;
    while i < |sentences|
      invariant 0 <= i <= |sentences|
      invariant Acc(chunks, current, size) == Run(sentences[..i], opts)
    {
      var sentence := sentences[i];
      assert sentences[..i + 1][..i] == sentences[..i];
      ghost var after := Step(Acc(chunks, current, size), sentence, opts);
      assert after == Run(sentences[..i + 1], opts);
      var sSize := |sentence|;
      if size + sSize > opts.maxChunkSize && current != [] {
        chunks := chunks + [Trim(current)];
        var overlap := Join(SliceFrom(SplitOn(current, ' '), -(opts.overlapSize / 10)), " ");
        current := overlap + " " + sentence;
        size := |current|;
        assert after == Acc(chunks, current, size);
      } else {
        current := current + (if current != [] then " " else "") + sentence;
        size := size + sSize;
        assert after == Acc(chunks, current, size);
      }
      i := i + 1;
    }
    assert sentences[..i] == sentences;
    if Trim(current) != [] {
      chunks := chunks + [Trim(current)];
    }
  }
}
