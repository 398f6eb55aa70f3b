/** What `chunkText` promises, proved about the model in module Chunker: the
    normalised text, the sentence split, and an exact description of the chunks
    (which sentences each chunk takes, what it carries over from the previous one,
    and the size test that closes it). */
module ChunkerProofs {
  import opened TextUtil
  import opened Chunker

  // ---------------------------------------------------------------------------
  // Normalisation

  /** Every white-space character is a space and is not followed by white space. */
  ghost predicate Collapsed(t: string) {
    (forall i :: 0 <= i < |t| && IsSpace(t[i]) ==> t[i] == ' ') && NoDoubleSpace(t)
  }

  lemma {:induction false} CollapseIsCollapsed(s: string)
    ensures Collapsed(Collapse(s))
    decreases |s|
  {
    if s != [] {
      var r := Collapse(s);
      var t, h;
      if IsSpace(s[0]) {
        t := TrimStart(s);
        h := ' ';
      } else {
        t := s[1..];
        h := s[0];
      }
      CollapseIsCollapsed(t);
      var rt := Collapse(t);
      assert r == [h] + rt;
      forall i | 0 < i < |r| ensures r[i] == rt[i - 1] {
      }
      forall i, j | 0 <= i && j == i + 1 && j < |r| ensures !(IsSpace(r[i]) && IsSpace(r[j])) {
        if i > 0 {
          assert r[i] == rt[i - 1] && r[j] == rt[j - 1];
        } else {
          assert r[1] == rt[0];
        }
      }
    }
  }

  /** A slice of collapsed text is collapsed. */
  lemma {:induction false} CollapsedSlice(c: string, lo: nat, hi: nat)
    requires Collapsed(c) && lo <= hi <= |c|
    ensures Collapsed(c[lo..hi])
  {
    var t := c[lo..hi];
    forall i | 0 <= i < |t| ensures t[i] == c[lo + i] {
    }
    forall i, j | 0 <= i && j == i + 1 && j < |t| ensures !(IsSpace(t[i]) && IsSpace(t[j])) {
      assert t[i] == c[lo + i] && t[j] == c[lo + j];
    }
  }

  /** Collapsed text that neither starts nor ends with white space is normal. */
  lemma {:induction false} CollapsedTrimmedIsNormal(t: string)
    requires Collapsed(t)
    requires t == [] || (!IsSpace(t[0]) && !IsSpace(t[|t| - 1]))
    ensures Normal(t)
  {
  }

  /** The text `chunkText` splits is in normal form. */
  lemma {:induction false} CleanTextIsNormal(text: string)
    ensures Normal(CleanText(text))
  {
    var c := Collapse(text);
    CollapseIsCollapsed(text);
    var lo, hi := TrimIsInnerSlice(c);
    CollapsedSlice(c, lo, hi);
    CollapsedTrimmedIsNormal(Trim(c));
  }

  /** The normalised text is empty exactly when the input is empty or white space
      only. */
  lemma {:induction false} CleanTextEmptyIffAllSpace(text: string)
    ensures CleanText(text) == [] <==> AllSpace(text)
  {
    TrimEmptyIffAllSpace(Collapse(text));
  }

  lemma {:induction false} CollapsedIsFixed(t: string)
    requires Collapsed(t)
    ensures Collapse(t) == t
    decreases |t|
  {
    if t != [] {
      var t' := t[1..];
      assert Collapsed(t') by {
        forall i | 0 <= i < |t'| ensures t'[i] == t[i + 1] {
        }
        forall i, j | 0 <= i && j == i + 1 && j < |t'| ensures !(IsSpace(t'[i]) && IsSpace(t'[j])) {
          assert t'[i] == t[i + 1] && t'[j] == t[j + 1];
        }
      }
      CollapsedIsFixed(t[1..]);
      if IsSpace(t[0]) {
        assert TrimStart(t) == TrimStart(t[1..]);
        if |t| > 1 {
          assert !(IsSpace(t[0]) && IsSpace(t[1]));
        }
        assert TrimStart(t[1..]) == t[1..];
        assert t == " " + t[1..];
      } else {
        assert t == [t[0]] + t[1..];
      }
    }
  }

  /** Normalising text that is already normal changes nothing. */
  lemma {:induction false} NormalIsFixed(t: string)
    requires Normal(t)
    ensures CleanText(t) == t
  {
    CollapsedIsFixed(t);
    TrimOfTrimmed(t);
  }

  // ---------------------------------------------------------------------------
  // Sentences

  /** A sentence as the split yields it from normal text: non-empty, and neither
      starting nor ending with white space. */
  predicate Solid(s: string) {
    s != [] && !IsSpace(s[0]) && !IsSpace(s[|s| - 1])
  }

  /** No `.`, `!` or `?` followed by white space inside the sentence: every such
      place is a cut. */
  ghost predicate NoInnerBreak(s: string) {
    forall i, j :: 0 <= i && j == i + 1 && j < |s| ==> !(EndsSentence(s[i]) && IsSpace(s[j]))
  }

  /** `ss` is the sentence split of the normal text `t`: joined with single spaces
      they give `t` back, each is solid with no cut inside it, and every sentence
      but the last ends with `.`, `!` or `?`. */
  ghost predicate SentenceSplit(t: string, ss: seq<string>) {
    Join(ss, " ") == t
    && (forall k :: 0 <= k < |ss| ==> Solid(ss[k]) && NoInnerBreak(ss[k]))
    && (forall k :: 0 <= k < |ss| - 1 ==> ss[k] != [] && EndsSentence(ss[k][|ss[k]| - 1]))
  }

  /** At a cut in normal text the white space is a single space, and what follows
      it is normal again. */
  lemma {:induction false} CutRest(cur: string, t: string)
    requires Normal(cur + t) && cur != [] && t != [] && IsSpace(t[0])
    ensures |t| > 1 && t[0] == ' ' && TrimStart(t) == t[1..] && Normal(t[1..])
  {
    var u := cur + t;
    assert u[|cur|] == t[0];
    assert u[|cur| + 1] == t[1];
    assert !(IsSpace(u[|cur|]) && IsSpace(u[|cur| + 1]));
    assert TrimStart(t) == TrimStart(t[1..]);
    assert t[1..] == u[|cur| + 1..|u|];
    CollapsedSlice(u, |cur| + 1, |u|);
    assert t[1..][|t| - 2] == u[|u| - 1];
    CollapsedTrimmedIsNormal(t[1..]);
  }

  /** A cut adds the sentence read so far in front of the split of the rest. */
  lemma {:induction false} CutSplit(cur: string, t: string, tail: seq<string>)
    requires Normal(cur + t) && NoInnerBreak(cur)
    requires cur != [] && EndsSentence(cur[|cur| - 1])
    requires |t| > 1 && t[0] == ' ' && SentenceSplit(t[1..], tail)
    ensures SentenceSplit(cur + t, [cur] + tail)
  {
    var r := [cur] + tail;
    JoinConcat([cur], tail, " ");
    assert t == " " + t[1..];
    assert (cur + t)[0] == cur[0];
    assert Solid(cur);
    forall k | 0 <= k < |r| ensures Solid(r[k]) && NoInnerBreak(r[k]) {
      if k > 0 {
        assert r[k] == tail[k - 1];
      }
    }
    forall k | 0 <= k < |r| - 1 ensures r[k] != [] && EndsSentence(r[k][|r[k]| - 1]) {
      if k > 0 {
        assert r[k] == tail[k - 1];
      }
    }
  }

  /** Reading one more character that is not a cut keeps the sentence free of
      cuts. */
  lemma {:induction false} ExtendSentence(cur: string, t: string)
    requires Normal(cur + t) && NoInnerBreak(cur) && t != []
    requires !(IsSpace(t[0]) && cur != [] && EndsSentence(cur[|cur| - 1]))
    ensures (cur + [t[0]]) + t[1..] == cur + t && NoInnerBreak(cur + [t[0]])
  {
    var cur' := cur + [t[0]];
    assert cur' + t[1..] == cur + t;
    forall i, j | 0 <= i && j == i + 1 && j < |cur'| ensures !(EndsSentence(cur'[i]) && IsSpace(cur'[j])) {
      if j < |cur| {
        assert cur'[i] == cur[i] && cur'[j] == cur[j];
      }
    }
  }

  lemma {:induction false} SplitFromNormal(t: string, cur: string)
    requires Normal(cur + t) && cur + t != []
    requires NoInnerBreak(cur)
    ensures SentenceSplit(cur + t, SplitFrom(t, cur))
    decreases |t|
  {
    if t == [] {
      assert cur + t == cur;
    } else if IsSpace(t[0]) && cur != [] && EndsSentence(cur[|cur| - 1]) {
      CutRest(cur, t);
      assert [] + t[1..] == t[1..];
      SplitFromNormal(t[1..], []);
      CutSplit(cur, t, SplitFrom(t[1..], []));
    } else {
      ExtendSentence(cur, t);
      SplitFromNormal(t[1..], cur + [t[0]]);
    }
  }

  /** The sentence split of normal text cuts it exactly at the single spaces that
      follow `.`, `!` or `?`: nothing is lost and no sentence is divided elsewhere. */
  lemma {:induction false} SplitSentencesOfNormal(t: string)
    requires Normal(t) && t != []
    ensures SentenceSplit(t, SplitSentences(t))
  {
    assert [] + t == t;
    SplitFromNormal(t, []);
  }

  // ---------------------------------------------------------------------------
  // Chunks: an exact description
  //
  // Chunk `c` takes the sentences `ss[cuts[c]..cuts[c + 1]]` and starts with the
  // text `leads[c]` carried over from chunk `c - 1` (nothing for the first chunk).

  /** Total length of the sentences, without any joining spaces. */
  function SumLen(ss: seq<string>): nat {
    if ss == [] then 0 else SumLen(ss[..|ss| - 1]) + |ss[|ss| - 1]|
  }

  /** Strictly increasing: `cuts[a] < cuts[b]` whenever `a < b`. */
  predicate Increasing(cuts: seq<nat>) {
    forall a, b :: 0 <= a < b < |cuts| ==> cuts[a] < cuts[b]
  }

  /** The text of chunk `c` once it has taken the sentences `ss[cuts[c]..e]`: its
      lead, then the sentences joined with single spaces. */
  function GroupText(ss: seq<string>, cuts: seq<nat>, leads: seq<string>, c: nat, e: nat): string
    requires c < |cuts| && c < |leads| && cuts[c] <= e <= |ss|
  {
    leads[c] + Join(ss[cuts[c]..e], " ")
  }

  /** The `size` counter of chunk `c` at that point: the lead's length plus the
      sentences' lengths, the joining spaces not counted. */
  function GroupSize(ss: seq<string>, cuts: seq<nat>, leads: seq<string>, c: nat, e: nat): int
    requires c < |cuts| && c < |leads| && cuts[c] <= e <= |ss|
  {
    |leads[c]| + SumLen(ss[cuts[c]..e])
  }

  /** Chunk `c`, having taken the sentences `ss[cuts[c]..e]`, took each one after
      its first because the `size` counter plus that sentence's length stayed within
      `maxChunkSize`. */
  ghost predicate Fits(ss: seq<string>, opts: Options, cuts: seq<nat>, leads: seq<string>, c: nat, e: nat)
  {
    c < |cuts| && c < |leads| && cuts[c] <= e <= |ss|
    && forall j {:trigger GroupSize(ss, cuts, leads, c, j)} :: cuts[c] < j < e ==>
         GroupSize(ss, cuts, leads, c, j) + |ss[j]| <= opts.maxChunkSize
  }

  /** Chunk `c` is closed: it took the sentences `ss[cuts[c]..cuts[c + 1]]`, at least
      one, under the size test, and its text `raws[c]` is its lead followed by them. */
  ghost predicate Closed(ss: seq<string>, opts: Options, cuts: seq<nat>, leads: seq<string>, raws: seq<string>, c: nat)
  {
    c + 1 < |cuts| && c < |leads| && c < |raws| && cuts[c] < cuts[c + 1] <= |ss|
    && raws[c] == GroupText(ss, cuts, leads, c, cuts[c + 1])
    && Fits(ss, opts, cuts, leads, c, cuts[c + 1])
  }

  /** Chunk `c - 1` was closed when sentence `ss[cuts[c]]` came, because the `size`
      counter plus that sentence's length exceeded `maxChunkSize`; chunk `c` then
      starts with the overlap drawn from chunk `c - 1`'s text and a space. */
  ghost predicate Cut(ss: seq<string>, opts: Options, cuts: seq<nat>, leads: seq<string>, raws: seq<string>, c: nat)
  {
    0 < c < |cuts| && c < |leads| && c <= |raws| && cuts[c - 1] <= cuts[c] < |ss|
    && GroupSize(ss, cuts, leads, c - 1, cuts[c]) + |ss[cuts[c]]| > opts.maxChunkSize
    && leads[c] == Overlap(raws[c - 1], opts.overlapSize) + " "
  }

  /** Every text trimmed, in order. */
  function TrimAll(raws: seq<string>): (r: seq<string>)
    ensures |r| == |raws|
  {
    if raws == [] then [] else TrimAll(raws[..|raws| - 1]) + [Trim(raws[|raws| - 1])]
  }

  lemma {:induction false} TrimAllIndex(raws: seq<string>, c: nat)
    requires c < |raws|
    ensures TrimAll(raws)[c] == Trim(raws[c])
    decreases |raws|
  {
    if c < |raws| - 1 {
      TrimAllIndex(raws[..|raws| - 1], c);
    }
  }

  /** `chunks` is what chunking the sentences `ss` must give: the cuts cover every
      sentence once, in order; the first chunk has no lead; every chunk is closed as
      `Closed` says; every cut is as `Cut` says; and the chunks are the texts
      trimmed. */
  ghost predicate Segmented(ss: seq<string>, opts: Options, chunks: seq<string>, cuts: seq<nat>, leads: seq<string>, raws: seq<string>)
  {
    var n := |raws|;
    |leads| == n && |cuts| == n + 1 && cuts[0] == 0 && cuts[n] == |ss| && Increasing(cuts)
    && (n > 0 ==> leads[0] == [])
    && (forall c :: 0 <= c < n ==> Closed(ss, opts, cuts, leads, raws, c))
    && (forall c :: 0 < c < n ==> Cut(ss, opts, cuts, leads, raws, c))
    && chunks == TrimAll(raws)
  }

  /** The loop part-way: `m` sentences consumed, the chunks pushed so far closed as
      `Segmented` describes, and the chunk in progress, number `k`, holding
      `ss[cuts[k]..m]`. */
  ghost predicate Partial(ss: seq<string>, opts: Options, m: nat, acc: Acc, cuts: seq<nat>, leads: seq<string>, raws: seq<string>)
  {
    var k := |raws|;
    m <= |ss| && |leads| == k + 1 && |cuts| == k + 1 && cuts[0] == 0 && leads[0] == []
    && Increasing(cuts) && cuts[k] < m
    && (forall c :: 0 <= c < k ==> Closed(ss, opts, cuts, leads, raws, c))
    && (forall c :: 0 < c <= k ==> Cut(ss, opts, cuts, leads, raws, c))
    && acc.chunks == TrimAll(raws)
    && acc.current == GroupText(ss, cuts, leads, k, m)
    && acc.size == GroupSize(ss, cuts, leads, k, m)
    && Fits(ss, opts, cuts, leads, k, m)
  }

  lemma {:induction false} SumLenSnoc(ss: seq<string>, a: nat, e: nat)
    requires a <= e < |ss|
    ensures SumLen(ss[a..e + 1]) == SumLen(ss[a..e]) + |ss[e]|
  {
    assert ss[a..e + 1][..e - a] == ss[a..e];
  }

  lemma {:induction false} SumLenOne(ss: seq<string>, a: nat)
    requires a < |ss|
    ensures SumLen(ss[a..a + 1]) == |ss[a]|
  {
    SumLenSnoc(ss, a, a);
  }

  lemma {:induction false} JoinRangeSnoc(ss: seq<string>, a: nat, e: nat)
    requires a <= e < |ss|
    ensures Join(ss[a..e + 1], " ") == if a == e then ss[e] else Join(ss[a..e], " ") + " " + ss[e]
  {
    assert ss[a..e + 1] == ss[a..e] + [ss[e]];
    JoinSnoc(ss[a..e], ss[e], " ");
  }

  /** Joining sentences whose last one is solid ends with that sentence's last,
      non-space, character. */
  lemma {:induction false} JoinEndsSolid(ws: seq<string>)
    requires ws != [] && Solid(ws[|ws| - 1])
    ensures var j := Join(ws, " "); j != [] && j[|j| - 1] == ws[|ws| - 1][|ws[|ws| - 1]| - 1]
  {
    var last := ws[|ws| - 1];
    assert ws == ws[..|ws| - 1] + [last];
    JoinSnoc(ws[..|ws| - 1], last, " ");
  }

  /** Chunk `c`'s text and counter depend only on where it starts and on its lead. */
  lemma {:induction false} GroupSame(ss: seq<string>, cuts: seq<nat>, leads: seq<string>, cuts2: seq<nat>, leads2: seq<string>, c: nat, e: nat)
    requires c < |cuts| && c < |leads| && cuts[c] <= e <= |ss|
    requires c < |cuts2| && c < |leads2| && cuts2[c] == cuts[c] && leads2[c] == leads[c]
    ensures GroupText(ss, cuts2, leads2, c, e) == GroupText(ss, cuts, leads, c, e)
    ensures GroupSize(ss, cuts2, leads2, c, e) == GroupSize(ss, cuts, leads, c, e)
  {
  }

  lemma {:induction false} FitsSame(ss: seq<string>, opts: Options, cuts: seq<nat>, leads: seq<string>, cuts2: seq<nat>, leads2: seq<string>, c: nat, e: nat)
    requires Fits(ss, opts, cuts, leads, c, e)
    requires c < |cuts2| && c < |leads2| && cuts2[c] == cuts[c] && leads2[c] == leads[c]
    ensures Fits(ss, opts, cuts2, leads2, c, e)
  {
    forall j | cuts[c] < j < e
      ensures GroupSize(ss, cuts2, leads2, c, j) == GroupSize(ss, cuts, leads, c, j)
    {
      GroupSame(ss, cuts, leads, cuts2, leads2, c, j);
    }
  }

  lemma {:induction false} ClosedSame(ss: seq<string>, opts: Options, cuts: seq<nat>, leads: seq<string>, raws: seq<string>,
                   cuts2: seq<nat>, leads2: seq<string>, raws2: seq<string>, c: nat)
    requires Closed(ss, opts, cuts, leads, raws, c)
    requires c + 1 < |cuts2| && c < |leads2| && c < |raws2|
    requires cuts2[c] == cuts[c] && cuts2[c + 1] == cuts[c + 1] && leads2[c] == leads[c] && raws2[c] == raws[c]
    ensures Closed(ss, opts, cuts2, leads2, raws2, c)
  {
    GroupSame(ss, cuts, leads, cuts2, leads2, c, cuts[c + 1]);
    FitsSame(ss, opts, cuts, leads, cuts2, leads2, c, cuts[c + 1]);
  }

  lemma {:induction false} CutSame(ss: seq<string>, opts: Options, cuts: seq<nat>, leads: seq<string>, raws: seq<string>,
                cuts2: seq<nat>, leads2: seq<string>, raws2: seq<string>, c: nat)
    requires Cut(ss, opts, cuts, leads, raws, c)
    requires c < |cuts2| && c < |leads2| && c <= |raws2|
    requires cuts2[c - 1] == cuts[c - 1] && cuts2[c] == cuts[c]
    requires leads2[c - 1] == leads[c - 1] && leads2[c] == leads[c] && raws2[c - 1] == raws[c - 1]
    ensures Cut(ss, opts, cuts2, leads2, raws2, c)
  {
    GroupSame(ss, cuts, leads, cuts2, leads2, c - 1, cuts[c]);
  }

  lemma {:induction false} TrimAllSnoc(raws: seq<string>, r: string)
    ensures TrimAll(raws + [r]) == TrimAll(raws) + [Trim(r)]
  {
    assert (raws + [r])[..|raws|] == raws;
  }

  /** Closing the chunk in progress after sentence `m - 1`: every chunk so far, that
      one included, is then closed as `Closed` describes, whatever lead the next
      chunk is given. */
  lemma {:induction false} CloseOpen(ss: seq<string>, opts: Options, m: nat, acc: Acc, cuts: seq<nat>, leads: seq<string>, raws: seq<string>,
                  leads2: seq<string>)
    requires Partial(ss, opts, m, acc, cuts, leads, raws)
    requires |leads| <= |leads2| && leads2[..|leads|] == leads
    ensures Increasing(cuts + [m])
    ensures forall c :: 0 <= c <= |raws| ==> Closed(ss, opts, cuts + [m], leads2, raws + [acc.current], c)
    ensures forall c :: 0 < c <= |raws| ==> Cut(ss, opts, cuts + [m], leads2, raws + [acc.current], c)
  {
    var k := |raws|;
    var cuts2, raws2 := cuts + [m], raws + [acc.current];
    forall c | 0 <= c <= k ensures cuts2[c] == cuts[c] && leads2[c] == leads[c] {
      assert leads2[..|leads|][c] == leads2[c];
    }
    forall c | 0 <= c < k ensures raws2[c] == raws[c] {
    }
    forall a, b | 0 <= a < b < |cuts2| ensures cuts2[a] < cuts2[b] {
      if b <= k {
      } else if a < k {
        assert cuts[a] < cuts[k];
      }
    }
    forall c | 0 <= c <= k ensures Closed(ss, opts, cuts2, leads2, raws2, c) {
      if c < k {
        ClosedSame(ss, opts, cuts, leads, raws, cuts2, leads2, raws2, c);
      } else {
        GroupSame(ss, cuts, leads, cuts2, leads2, k, m);
        FitsSame(ss, opts, cuts, leads, cuts2, leads2, k, m);
      }
    }
    forall c | 0 < c <= k ensures Cut(ss, opts, cuts2, leads2, raws2, c) {
      CutSame(ss, opts, cuts, leads, raws, cuts2, leads2, raws2, c);
    }
  }

  /** The chunk in progress is never empty: it ends with the last character of a
      solid sentence. */
  lemma {:induction false} OpenNonEmpty(ss: seq<string>, opts: Options, m: nat, acc: Acc, cuts: seq<nat>, leads: seq<string>, raws: seq<string>)
    requires forall i :: 0 <= i < |ss| ==> Solid(ss[i])
    requires Partial(ss, opts, m, acc, cuts, leads, raws)
    ensures acc.current != [] && !IsSpace(acc.current[|acc.current| - 1])
  {
    var k := |raws|;
    var ws := ss[cuts[k]..m];
    assert ws[|ws| - 1] == ss[m - 1];
    JoinEndsSolid(ws);
    var j := Join(ws, " ");
    assert acc.current == leads[k] + j;
    assert acc.current[|acc.current| - 1] == j[|j| - 1];
  }

  /** An iteration whose sentence does not fit closes the chunk in progress and
      opens the next with the overlap and that sentence. */
  lemma {:induction false} StepCut(ss: seq<string>, opts: Options, m: nat, acc: Acc, cuts: seq<nat>, leads: seq<string>, raws: seq<string>)
    requires forall i :: 0 <= i < |ss| ==> Solid(ss[i])
    requires Partial(ss, opts, m, acc, cuts, leads, raws) && m < |ss|
    requires acc.size + |ss[m]| > opts.maxChunkSize
    ensures Partial(ss, opts, m + 1, Step(acc, ss[m], opts), cuts + [m],
                    leads + [Overlap(acc.current, opts.overlapSize) + " "], raws + [acc.current])
  {
    var k := |raws|;
    var x := Overlap(acc.current, opts.overlapSize) + " ";
    OpenNonEmpty(ss, opts, m, acc, cuts, leads, raws);
    var acc' := Step(acc, ss[m], opts);
    assert acc' == Acc(acc.chunks + [Trim(acc.current)], x + ss[m], |x + ss[m]|);
    var cuts2, leads2, raws2 := cuts + [m], leads + [x], raws + [acc.current];
    assert leads2[..|leads|] == leads;
    CloseOpen(ss, opts, m, acc, cuts, leads, raws, leads2);
    TrimAllSnoc(raws, acc.current);
    assert Cut(ss, opts, cuts2, leads2, raws2, k + 1) by {
      GroupSame(ss, cuts, leads, cuts2, leads2, k, m);
    }
    assert acc'.current == GroupText(ss, cuts2, leads2, k + 1, m + 1) by {
      JoinRangeSnoc(ss, m, m);
    }
    assert acc'.size == GroupSize(ss, cuts2, leads2, k + 1, m + 1) by {
      SumLenOne(ss, m);
    }
  }

  /** An iteration whose sentence fits adds it to the chunk in progress. */
  lemma {:induction false} StepAppend(ss: seq<string>, opts: Options, m: nat, acc: Acc, cuts: seq<nat>, leads: seq<string>, raws: seq<string>)
    requires forall i :: 0 <= i < |ss| ==> Solid(ss[i])
    requires Partial(ss, opts, m, acc, cuts, leads, raws) && m < |ss|
    requires acc.size + |ss[m]| <= opts.maxChunkSize
    ensures Partial(ss, opts, m + 1, Step(acc, ss[m], opts), cuts, leads, raws)
  {
    var k := |raws|;
    OpenNonEmpty(ss, opts, m, acc, cuts, leads, raws);
    var acc' := Step(acc, ss[m], opts);
    assert acc' == Acc(acc.chunks, acc.current + " " + ss[m], acc.size + |ss[m]|);
    assert acc'.current == GroupText(ss, cuts, leads, k, m + 1) by {
      JoinRangeSnoc(ss, cuts[k], m);
    }
    assert acc'.size == GroupSize(ss, cuts, leads, k, m + 1) by {
      SumLenSnoc(ss, cuts[k], m);
    }
    assert Fits(ss, opts, cuts, leads, k, m + 1);
  }

  /** After the first sentence the chunk in progress is that sentence alone. */
  lemma {:induction false} FirstPartial(ss: seq<string>, opts: Options)
    requires ss != []
    ensures Partial(ss, opts, 1, Run(ss[..1], opts), [0], [[]], [])
  {
    assert ss[..1][..0] == [] && ss[..1][0] == ss[0];
    assert Run(ss[..1], opts) == Step(Run([], opts), ss[0], opts);
    assert Run(ss[..1], opts) == Acc([], ss[0], |ss[0]|);
    assert ss[0..1] == [ss[0]];
    SumLenOne(ss, 0);
    assert GroupText(ss, [0], [[]], 0, 1) == ss[0];
  }

  /** Every iteration keeps the description true. */
  lemma {:induction false} StepPartial(ss: seq<string>, opts: Options, m: nat, acc: Acc, cuts: seq<nat>, leads: seq<string>, raws: seq<string>)
      returns (cuts': seq<nat>, leads': seq<string>, raws': seq<string>)
    requires forall i :: 0 <= i < |ss| ==> Solid(ss[i])
    requires Partial(ss, opts, m, acc, cuts, leads, raws) && m < |ss|
    ensures Partial(ss, opts, m + 1, Step(acc, ss[m], opts), cuts', leads', raws')
  {
    if acc.size + |ss[m]| > opts.maxChunkSize {
      StepCut(ss, opts, m, acc, cuts, leads, raws);
      cuts', leads', raws' := cuts + [m], leads + [Overlap(acc.current, opts.overlapSize) + " "], raws + [acc.current];
    } else {
      StepAppend(ss, opts, m, acc, cuts, leads, raws);
      cuts', leads', raws' := cuts, leads, raws;
    }
  }

  /** After every iteration the loop's variables are as `Partial` describes. */
  lemma {:induction false} RunPartial(ss: seq<string>, opts: Options, m: nat)
      returns (cuts: seq<nat>, leads: seq<string>, raws: seq<string>)
    requires forall i :: 0 <= i < |ss| ==> Solid(ss[i])
    requires 1 <= m <= |ss|
    ensures Partial(ss, opts, m, Run(ss[..m], opts), cuts, leads, raws)
    decreases m
  {
    if m == 1 {
      FirstPartial(ss, opts);
      cuts, leads, raws := [0], [[]], [];
    } else {
      var cuts0, leads0, raws0 := RunPartial(ss, opts, m - 1);
      cuts, leads, raws := StepPartial(ss, opts, m - 1, Run(ss[..m - 1], opts), cuts0, leads0, raws0);
      RunSnoc(ss, opts, m - 1);
    }
  }

  /** One more sentence is one more `Step`. */
  lemma {:induction false} RunSnoc(ss: seq<string>, opts: Options, m: nat)
    requires m < |ss|
    ensures Run(ss[..m + 1], opts) == Step(Run(ss[..m], opts), ss[m], opts)
  {
    assert ss[..m + 1][..m] == ss[..m];
  }

  /** The push after the loop closes the chunk in progress. */
  lemma {:induction false} FinishSegmented(ss: seq<string>, opts: Options, acc: Acc, cuts: seq<nat>, leads: seq<string>, raws: seq<string>)
    requires forall i :: 0 <= i < |ss| ==> Solid(ss[i])
    requires Partial(ss, opts, |ss|, acc, cuts, leads, raws)
    ensures Segmented(ss, opts, Finish(acc), cuts + [|ss|], leads, raws + [acc.current])
  {
    OpenNonEmpty(ss, opts, |ss|, acc, cuts, leads, raws);
    TrimEmptyIffAllSpace(acc.current);
    assert Finish(acc) == acc.chunks + [Trim(acc.current)];
    TrimAllSnoc(raws, acc.current);
    assert leads[..|leads|] == leads;
    CloseOpen(ss, opts, |ss|, acc, cuts, leads, raws, leads);
  }

  /** The sentences `chunkText` works on. */
  function SentencesOf(text: string): seq<string> {
    SplitSentences(CleanText(text))
  }

  /** The main theorem about `chunkText`: white-space-only input gives no chunks,
      and any other input is chunked exactly as `Segmented` describes, over the
      sentences of its normalised text. */
  lemma {:induction false} ChunksAreSegmented(text: string, opts: Options) returns (cuts: seq<nat>, leads: seq<string>, raws: seq<string>)
    ensures AllSpace(text) ==> Chunks(text, opts) == []
    ensures !AllSpace(text) ==> SentenceSplit(CleanText(text), SentencesOf(text))
    ensures !AllSpace(text) ==> Segmented(SentencesOf(text), opts, Chunks(text, opts), cuts, leads, raws)
  {
    CleanTextEmptyIffAllSpace(text);
    var t := CleanText(text);
    var ss := SentencesOf(text);
    if t == [] {
      assert ss == [[]];
      assert ss[..0] == [];
      assert Run(ss, opts) == Step(InitialAcc(), [], opts);
      cuts, leads, raws := [0], [], [];
    } else {
      CleanTextIsNormal(text);
      SplitSentencesOfNormal(t);
      var cuts0, leads0, raws0 := RunPartial(ss, opts, |ss|);
      assert ss[..|ss|] == ss;
      FinishSegmented(ss, opts, Run(ss, opts), cuts0, leads0, raws0);
      cuts, leads, raws := cuts0 + [|ss|], leads0, raws0 + [Run(ss, opts).current];
    }
  }
}
