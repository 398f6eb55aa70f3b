/** Consequences of the description in ChunkerProofs: what every chunk looks like,
    what the overlap carries, the sentence split's round trip, and the worked
    example of twenty short sentences under a 20-character budget. */
module ChunkerFacts {
  import opened TextUtil
  import opened Chunker
  import opened ChunkerProofs

  // ---------------------------------------------------------------------------
  // Every chunk is non-empty and trimmed

  /** Joining starts with the first piece. */
  lemma {:induction false} JoinHead(ws: seq<string>, sep: string)
    requires ws != [] && ws[0] != []
    ensures Join(ws, sep) != [] && Join(ws, sep)[0] == ws[0][0]
  {
  }

  /** The text a chunk accumulates holds at least one non-space character: the
      first character of the first sentence it takes. */
  lemma {:induction false} ClosedNotAllSpace(ss: seq<string>, opts: Options, cuts: seq<nat>, leads: seq<string>, raws: seq<string>, c: nat)
    requires forall i :: 0 <= i < |ss| ==> Solid(ss[i])
    requires Closed(ss, opts, cuts, leads, raws, c)
    ensures !AllSpace(raws[c])
  {
    var ws := ss[cuts[c]..cuts[c + 1]];
    assert ws[0] == ss[cuts[c]];
    JoinHead(ws, " ");
    var r := raws[c];
    assert r == leads[c] + Join(ws, " ");
    assert r[|leads[c]|] == ws[0][0];
  }

  /** Every chunk `chunkText` returns is non-empty and equal to its own trim. */
  lemma {:induction false} ChunksNonEmptyTrimmed(text: string, opts: Options)
    ensures forall k :: 0 <= k < |Chunks(text, opts)| ==>
      Chunks(text, opts)[k] != [] && Trim(Chunks(text, opts)[k]) == Chunks(text, opts)[k]
  {
    var cuts, leads, raws := ChunksAreSegmented(text, opts);
    if !AllSpace(text) {
      var ss := SentencesOf(text);
      var chunks := Chunks(text, opts);
      forall k | 0 <= k < |chunks| ensures chunks[k] != [] && Trim(chunks[k]) == chunks[k] {
        assert Closed(ss, opts, cuts, leads, raws, k);
        ClosedNotAllSpace(ss, opts, cuts, leads, raws, k);
        TrimAllIndex(raws, k);
        TrimEmptyIffAllSpace(raws[k]);
        TrimIdempotent(raws[k]);
      }
    }
  }

  // ---------------------------------------------------------------------------
  // The overlap

  /** The carried text is always a suffix of the chunk just closed, made of its
      trailing words. */
  lemma {:induction false} OverlapIsSuffix(current: string, overlapSize: int)
    ensures var o := Overlap(current, overlapSize);
      |o| <= |current| && o == current[|current| - |o|..]
  {
    var ws := SplitOn(current, ' ');
    var tail := SliceFrom(ws, -(overlapSize / 10));
    var k := |ws| - |tail|;
    assert tail == ws[k..];
    JoinTailIsSuffix(ws, k, " ");
    JoinSplitOn(current, ' ');
  }

  /** With an `overlapSize` from 0 to 9, `Math.floor(overlapSize / 10)` is 0 and
      `slice(-0)` is `slice(0)`: the whole chunk just closed is carried over. */
  lemma {:induction false} OverlapBelowTenKeepsAll(current: string, overlapSize: int)
    requires 0 <= overlapSize < 10
    ensures Overlap(current, overlapSize) == current
  {
    var ws := SplitOn(current, ' ');
    assert SliceFrom(ws, -(overlapSize / 10)) == ws;
    JoinSplitOn(current, ' ');
  }

  /** How many words are carried: with `n` the floored tenth of `overlapSize`, a
      positive `n` keeps the last `n` words of the chunk (all of them when it has
      fewer), and a negative one drops its first `-n` words. */
  lemma {:induction false} OverlapWords(current: string, overlapSize: int)
    ensures var ws := SplitOn(current, ' ');
      var n := overlapSize / 10;
      var from := if n > 0 then (if n < |ws| then |ws| - n else 0) else (if -n < |ws| then -n else |ws|);
      Overlap(current, overlapSize) == Join(ws[from..], " ")
  {
    var ws := SplitOn(current, ' ');
    var tail := SliceFrom(ws, -(overlapSize / 10));
    assert tail == ws[|ws| - |tail|..];
  }

  // ---------------------------------------------------------------------------
  // The sentence split gives back the sentences it was joined from

  /** A word with no white space in it is read into the sentence in progress. */
  lemma {:induction false} SplitFromWord(w: string, rest: string, cur: string)
    requires forall i :: 0 <= i < |w| ==> !IsSpace(w[i])
    ensures SplitFrom(w + rest, cur) == SplitFrom(rest, cur + w)
    decreases |w|
  {
    if w != [] {
      assert (w + rest)[0] == w[0];
      assert (w + rest)[1..] == w[1..] + rest;
      assert cur + [w[0]] + w[1..] == cur + w;
      SplitFromWord(w[1..], rest, cur + [w[0]]);
    } else {
      assert w + rest == rest && cur + w == cur;
    }
  }

  /** Sentences without white space, each but the last ending with `.`, `!` or
      `?`, joined with single spaces, are split back into the same sentences. */
  lemma {:induction false} SplitJoin(ws: seq<string>)
    requires ws != []
    requires forall k :: 0 <= k < |ws| ==> ws[k] != [] && forall i :: 0 <= i < |ws[k]| ==> !IsSpace(ws[k][i])
    requires forall k :: 0 <= k < |ws| - 1 ==> EndsSentence(ws[k][|ws[k]| - 1])
    ensures SplitSentences(Join(ws, " ")) == ws
    decreases |ws|
  {
    var w := ws[0];
    if |ws| == 1 {
      SplitFromWord(w, [], []);
      assert w + [] == w && [] + w == w;
    } else {
      var j := Join(ws[1..], " ");
      assert Join(ws, " ") == w + (" " + j);
      SplitFromWord(w, " " + j, []);
      assert [] + w == w;
      var t := " " + j;
      JoinHead(ws[1..], " ");
      assert t[1..] == j && !IsSpace(t[1]);
      assert TrimStart(t) == TrimStart(j);
      assert TrimStart(j) == j;
      SplitJoin(ws[1..]);
      assert SplitFrom(t, w) == [w] + ws[1..];
    }
  }

  // ---------------------------------------------------------------------------
  // Chunks only grow

  /** Going through more sentences never changes a chunk already closed. */
  lemma {:induction false} RunChunksGrow(ss: seq<string>, opts: Options, m: nat)
    requires m <= |ss|
    ensures Run(ss[..m], opts).chunks <= Run(ss, opts).chunks
    decreases |ss| - m
  {
    if m < |ss| {
      RunChunksGrow(ss, opts, m + 1);
      RunSnoc(ss, opts, m);
    } else {
      assert ss[..m] == ss;
    }
  }

  // ---------------------------------------------------------------------------
  // Worked example: twenty copies of "Sentence." joined by spaces, with
  // `maxChunkSize` 20 and `overlapSize` 5

  const Word: string := "Sentence."

  /** Copies of `Word` joined by spaces split back into the copies. */
  lemma {:induction false} CopiesSplit(ss: seq<string>)
    requires ss != [] && forall k :: 0 <= k < |ss| ==> ss[k] == Word
    ensures SentencesOf(Join(ss, " ")) == ss
  {
    assert forall i :: 0 <= i < |Word| ==> !IsSpace(Word[i]);
    SplitJoin(ss);
    JoinOfWordsIsNormal(ss);
    NormalIsFixed(Join(ss, " "));
  }

  lemma {:induction false} JoinPair(a: string, b: string, sep: string)
    ensures Join([a, b], sep) == a + sep + b
  {
    assert [a, b][1..] == [b];
  }

  /** Over copies of a 9-character sentence with a budget of 20, the first chunk
      is cut after exactly two sentences: a third would bring the size counter to
      27, while a cut after one would need a size above 20 with the second. */
  lemma {:induction false} FirstCutIsSecond(ss: seq<string>, w: string, chunks: seq<string>, cuts: seq<nat>, leads: seq<string>, raws: seq<string>)
    requires |ss| >= 3 && |w| == 9
    requires forall k :: 0 <= k < |ss| ==> ss[k] == w
    requires Segmented(ss, Options(20, 5), chunks, cuts, leads, raws)
    ensures |raws| > 1 && cuts[1] == 2
  {
    var opts := Options(20, 5);
    SumLenOne(ss, 0);
    SumLenSnoc(ss, 0, 1);
    assert |raws| > 0;
    assert Closed(ss, opts, cuts, leads, raws, 0);
    assert GroupSize(ss, cuts, leads, 0, 2) + |ss[2]| == 27;
    assert cuts[1] <= 2;
    assert |raws| > 1;
    assert Cut(ss, opts, cuts, leads, raws, 1);
  }

  /** So the first chunk's text is those two sentences joined by a space. */
  lemma {:induction false} FirstCutAtTwo(ss: seq<string>, w: string, chunks: seq<string>, cuts: seq<nat>, leads: seq<string>, raws: seq<string>)
    requires |ss| >= 3 && |w| == 9
    requires forall k :: 0 <= k < |ss| ==> ss[k] == w
    requires Segmented(ss, Options(20, 5), chunks, cuts, leads, raws)
    ensures |raws| > 1 && raws[0] == w + " " + w
  {
    FirstCutIsSecond(ss, w, chunks, cuts, leads, raws);
    assert Closed(ss, Options(20, 5), cuts, leads, raws, 0);
    assert raws[0] == leads[0] + Join(ss[0..2], " ");
    assert ss[0..2] == [w, w];
    JoinPair(w, w, " ");
  }

  /** Three or more copies of a 9-character sentence under the example's options:
      the first chunk holds exactly the first two sentences, and more chunks
      follow. */
  lemma {:induction false} CopiesOfNine(ss: seq<string>, w: string)
    requires |ss| >= 3 && |w| == 9 && Solid(w)
    requires forall k :: 0 <= k < |ss| ==> ss[k] == w
    requires SentencesOf(Join(ss, " ")) == ss
    ensures var chunks := Chunks(Join(ss, " "), Options(20, 5));
      |chunks| > 1 && chunks[0] == w + " " + w
  {
    var opts := Options(20, 5);
    var text := Join(ss, " ");
    assert !AllSpace(text) by {
      JoinHead(ss, " ");
      assert !IsSpace(text[0]);
    }
    var cuts, leads, raws := ChunksAreSegmented(text, opts);
    FirstCutAtTwo(ss, w, Chunks(text, opts), cuts, leads, raws);
    TrimAllIndex(raws, 0);
    var two := w + " " + w;
    assert two[0] == w[0] && two[|two| - 1] == w[|w| - 1];
    TrimOfTrimmed(two);
  }

  /** The example of twenty copies of "Sentence." joined by spaces, with
      `maxChunkSize` 20 and `overlapSize` 5: more than one chunk, and the first
      is 19 characters long. */
  lemma {:induction false} WorkedExample(ss: seq<string>, text: string, opts: Options)
    requires |ss| == 20 && forall k :: 0 <= k < |ss| ==> ss[k] == Word
    requires text == Join(ss, " ") && opts == Options(20, 5)
    ensures var chunks := Chunks(text, opts);
      |chunks| > 1 && chunks[0] == Word + " " + Word && |chunks[0]| == 19
  {
    CopiesSplit(ss);
    CopiesOfNine(ss, Word);
  }

  /** Words without white space, joined with single spaces, make normal text. */
  lemma {:induction false} JoinOfWordsIsNormal(ws: seq<string>)
    requires forall k :: 0 <= k < |ws| ==> ws[k] != [] && forall i :: 0 <= i < |ws[k]| ==> !IsSpace(ws[k][i])
    ensures Normal(Join(ws, " "))
    decreases |ws|
  {
    if |ws| > 1 {
      JoinOfWordsIsNormal(ws[1..]);
      var w := ws[0];
      var j := Join(ws[1..], " ");
      var t := Join(ws, " ");
      assert t == w + " " + j;
      assert Solid(ws[|ws| - 1]);
      JoinEndsSolid(ws[1..]);
      assert t[|t| - 1] == j[|j| - 1];
      JoinHead(ws[1..], " ");
      forall i | 0 <= i < |t| && IsSpace(t[i]) ensures t[i] == ' ' && 0 < i < |t| - 1 {
        if i > |w| {
          assert t[i] == j[i - |w| - 1];
        }
      }
      forall i, k | 0 <= i && k == i + 1 && k < |t| ensures !(IsSpace(t[i]) && IsSpace(t[k])) {
        if i < |w| {
          assert t[i] == w[i];
        } else {
          assert t[k] == j[k - |w| - 1];
        }
      }
    } else if |ws| == 1 {
      assert Join(ws, " ") == ws[0];
    }
  }
}
