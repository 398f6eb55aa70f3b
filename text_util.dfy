/** The JavaScript string and array built-ins the document pipeline relies on:
    `String.prototype.trim`, `split` on a separator character, `Array.prototype.join`,
    `Array.prototype.slice` with one argument, `startsWith`, and the decimal form a
    template literal gives a non-negative integer. */
module TextUtil {

  /** ECMAScript WhiteSpace and LineTerminator code points: what `\s` matches and
      what `trim` removes. */
  predicate IsSpace(c: char) {
    c == ' ' || c == '\t' || c == '\n' || c == '\r' || c == '\U{000B}' || c == '\U{000C}'
    || c == '\U{00A0}' || c == '\U{1680}' || ('\U{2000}' <= c <= '\U{200A}')
    || c == '\U{2028}' || c == '\U{2029}' || c == '\U{202F}' || c == '\U{205F}'
    || c == '\U{3000}' || c == '\U{FEFF}'
  }

  predicate AllSpace(s: string) {
    forall i :: 0 <= i < |s| ==> IsSpace(s[i])
  }

  lemma {:induction false} AllSpaceConcat(a: string, b: string)
    ensures AllSpace(a + b) <==> AllSpace(a) && AllSpace(b)
  {
    if AllSpace(a + b) {
      forall i | 0 <= i < |a| ensures IsSpace(a[i]) {
        assert a[i] == (a + b)[i];
      }
      forall i | 0 <= i < |b| ensures IsSpace(b[i]) {
        assert b[i] == (a + b)[|a| + i];
      }
    }
  }

  /** Leading white space removed: what is left is a suffix of `s` and everything
      dropped was white space. */
  function TrimStart(s: string): (r: string)
    ensures |r| <= |s| && r == s[|s| - |r|..]
    ensures r == [] || !IsSpace(r[0])
    ensures forall i :: 0 <= i < |s| - |r| ==> IsSpace(s[i])
    decreases |s|
  {
    if s != [] && IsSpace(s[0]) then TrimStart(s[1..]) else s
  }

  /** `String.prototype.trim`: white space is removed from both ends, so what is
      left neither starts nor ends with white space. */
  function Trim(s: string): (r: string)
    ensures |r| <= |s|
    ensures r == [] || (!IsSpace(r[0]) && !IsSpace(r[|r| - 1]))
    decreases |s|
  {
    if s != [] && IsSpace(s[0]) then Trim(s[1..])
    else if s != [] && IsSpace(s[|s| - 1]) then Trim(s[..|s| - 1])
    else s
  }

  /** A trimmed string is a slice of the original, and only white space was cut off
      either end. */
  lemma {:induction false} TrimIsInnerSlice(s: string) returns (lo: nat, hi: nat)
    ensures lo <= hi <= |s| && Trim(s) == s[lo..hi]
    ensures forall i :: 0 <= i < |s| && (i < lo || hi <= i) ==> IsSpace(s[i])
    decreases |s|
  {
    if s != [] && IsSpace(s[0]) {
      var t := s[1..];
      var l, h := TrimIsInnerSlice(t);
      lo, hi := l + 1, h + 1;
      assert t[l..h] == s[lo..hi];
      forall i | 0 <= i < |s| && (i < lo || hi <= i) ensures IsSpace(s[i]) {
        if i > 0 {
          assert s[i] == t[i - 1];
        }
      }
    } else if s != [] && IsSpace(s[|s| - 1]) {
      var t := s[..|s| - 1];
      var l, h := TrimIsInnerSlice(t);
      lo, hi := l, h;
      assert t[l..h] == s[lo..hi];
      forall i | 0 <= i < |s| && (i < lo || hi <= i) ensures IsSpace(s[i]) {
        if i < |s| - 1 {
          assert s[i] == t[i];
        }
      }
    } else {
      lo, hi := 0, |s|;
    }
  }

  /** `s.trim()` is empty exactly when `s` is empty or white space only. */
  lemma {:induction false} TrimEmptyIffAllSpace(s: string)
    ensures Trim(s) == [] <==> AllSpace(s)
  {
    var lo, hi := TrimIsInnerSlice(s);
    if Trim(s) != [] {
      assert s[lo] == Trim(s)[0];
    }
  }

  /** A string that neither starts nor ends with white space is its own trim. */
  lemma {:induction false} TrimOfTrimmed(s: string)
    requires s == [] || (!IsSpace(s[0]) && !IsSpace(s[|s| - 1]))
    ensures Trim(s) == s
  {
  }

  /** `s.trim()` never starts or ends with white space, so trimming twice changes
      nothing. */
  lemma {:induction false} TrimIdempotent(s: string)
    ensures Trim(Trim(s)) == Trim(s)
  {
    var lo, hi := TrimIsInnerSlice(s);
    TrimOfTrimmed(Trim(s));
  }

  /** `s.split(sep)` for a one-character separator: the pieces between separators,
      in order, empty pieces included. */
  function SplitOn(s: string, sep: char): (r: seq<string>)
    ensures |r| >= 1
    ensures forall k :: 0 <= k < |r| ==> sep !in r[k]
  {
    if s == [] then [[]]
    else
      var rest := SplitOn(s[1..], sep);
      if s[0] == sep then [[]] + rest else [[s[0]] + rest[0]] + rest[1..]
  }

  /** `ws.join(sep)`; joining no strings gives the empty string. */
  function Join(ws: seq<string>, sep: string): string
    decreases |ws|
  {
    if ws == [] then []
    else if |ws| == 1 then ws[0]
    else ws[0] + sep + Join(ws[1..], sep)
  }

  lemma {:induction false} JoinConcat(a: seq<string>, b: seq<string>, sep: string)
    requires a != [] && b != []
    ensures Join(a + b, sep) == Join(a, sep) + sep + Join(b, sep)
    decreases |a|
  {
    if |a| == 1 {
      assert (a + b)[1..] == b;
    } else {
      assert (a + b)[1..] == a[1..] + b;
      JoinConcat(a[1..], b, sep);
    }
  }

  /** Appending one more piece appends the separator and the piece. */
  lemma {:induction false} JoinSnoc(ws: seq<string>, w: string, sep: string)
    ensures Join(ws + [w], sep) == if ws == [] then w else Join(ws, sep) + sep + w
  {
    if ws == [] {
      assert ws + [w] == [w];
    } else {
      JoinConcat(ws, [w], sep);
    }
  }

  /** Splitting on a character and joining with it again gives back the string. */
  lemma {:induction false} JoinSplitOn(s: string, sep: char)
    ensures Join(SplitOn(s, sep), [sep]) == s
    decreases |s|
  {
    if s != [] {
      var rest := SplitOn(s[1..], sep);
      JoinSplitOn(s[1..], sep);
      if s[0] == sep {
        assert SplitOn(s, sep) == [[]] + rest;
        assert ([[]] + rest)[1..] == rest;
      } else if |rest| == 1 {
        assert SplitOn(s, sep) == [[s[0]] + rest[0]];
      } else {
        assert SplitOn(s, sep) == [[s[0]] + rest[0]] + rest[1..];
        assert ([[s[0]] + rest[0]] + rest[1..])[1..] == rest[1..];
        assert Join(rest, [sep]) == rest[0] + [sep] + Join(rest[1..], [sep]);
      }
    }
  }

  /** Joining a tail of the pieces gives a suffix of joining all of them. */
  lemma {:induction false} JoinTailIsSuffix(ws: seq<string>, k: nat, sep: string)
    requires k <= |ws|
    ensures |Join(ws[k..], sep)| <= |Join(ws, sep)|
    ensures Join(ws[k..], sep) == Join(ws, sep)[|Join(ws, sep)| - |Join(ws[k..], sep)|..]
  {
    if 0 < k < |ws| {
      assert ws == ws[..k] + ws[k..];
      JoinConcat(ws[..k], ws[k..], sep);
    } else if k == 0 {
      assert ws[k..] == ws;
    }
  }

  /** `xs.slice(start)` with JavaScript's rules: a negative start counts from the
      end (clamped at the front) and `slice(0)`, which is also `slice(-0)`, keeps
      everything. */
  function SliceFrom<T>(xs: seq<T>, start: int): (r: seq<T>)
    ensures |r| <= |xs| && r == xs[|xs| - |r|..]
    ensures start < 0 ==> |r| == (if -start < |xs| then -start else |xs|)
    ensures start >= 0 ==> |r| == (if start < |xs| then |xs| - start else 0)
  {
    if start < 0 then
      (if |xs| + start < 0 then xs else xs[|xs| + start..])
    else if start < |xs| then xs[start..]
    else []
  }

  /** `s.startsWith(prefix)`. */
  predicate StartsWith(s: string, prefix: string) {
    |prefix| <= |s| && s[..|prefix|] == prefix
  }

  function DigitChar(d: nat): char
    requires d < 10
  {
    (48 + d) as char
  }

  /** The decimal text of a non-negative integer, as `${n}` renders it. */
  function NatToString(n: nat): (r: string)
    ensures 1 <= |r|
    ensures 10 <= n ==> 2 <= |r|
  {
    if n < 10 then [DigitChar(n)] else NatToString(n / 10) + [DigitChar(n % 10)]
  }

  /** Distinct numbers have distinct decimal texts. */
  lemma {:induction false} NatToStringInjective(a: nat, b: nat)
    requires NatToString(a) == NatToString(b)
    ensures a == b
    decreases a
  {
    if 10 <= a && 10 <= b {
      var sa, sb := NatToString(a), NatToString(b);
      assert sa[|sa| - 1] == sb[|sb| - 1];
      assert DigitChar(a % 10) == DigitChar(b % 10);
      assert sa[..|sa| - 1] == NatToString(a / 10);
      assert sb[..|sb| - 1] == NatToString(b / 10);
      NatToStringInjective(a / 10, b / 10);
    } else if a < 10 && b < 10 {
      assert NatToString(a)[0] == NatToString(b)[0];
    }
  }

  /** Prefixing the same text preserves distinctness. */
  lemma {:induction false} PrefixCancel(p: string, x: string, y: string)
    requires p + x == p + y
    ensures x == y
  {
    assert x == (p + x)[|p|..];
    assert y == (p + y)[|p|..];
  }
}
