/**
 * The Python string operations the core relies on: `str.split(sep)` with a
 * one-character separator, `split(sep)[-1]`, `str.startswith` and `str.strip()`.
 */
module Text {
  import Seqs

  /** The position of the first `c` in `s`, or `|s|` when there is none. */
  function IndexOf(s: string, c: char): (r: nat)
    ensures r <= |s|
    ensures r < |s| ==> s[r] == c
  {
    if s == [] then 0 else if s[0] == c then 0 else 1 + IndexOf(s[1..], c)
  }

  /** No `c` comes before `IndexOf(s, c)`. */
  lemma {:induction false} IndexOfFirst(s: string, c: char)
    ensures forall k :: 0 <= k < IndexOf(s, c) ==> s[k] != c
    decreases |s|
  {
    if s != [] && s[0] != c {
      IndexOfFirst(s[1..], c);
      assert forall k :: 1 <= k < IndexOf(s, c) ==> s[k] == s[1..][k - 1];
    }
  }

  /** `s.split(sep)`: the pieces between consecutive separators, always at least one. */
  function Split(s: string, sep: char): (r: seq<string>)
    ensures |r| >= 1
    decreases |s|
  {
    var i := IndexOf(s, sep);
    if i == |s| then [s] else [s[..i]] + Split(s[i + 1..], sep)
  }

  /** `sep.join(pieces)` */
  function Join(pieces: seq<string>, sep: char): string
    requires |pieces| >= 1
  {
    if |pieces| == 1 then pieces[0] else pieces[0] + [sep] + Join(pieces[1..], sep)
  }

  /** `s.split(sep)[-1]`: never raises, since a split always has a piece. */
  function LastSegment(s: string, sep: char): string {
    var pieces := Split(s, sep);
    pieces[|pieces| - 1]
  }

  /** The number of occurrences of `c` in `s`. */
  function Count(s: string, c: char): nat {
    if s == [] then 0 else (if s[0] == c then 1 else 0) + Count(s[1..], c)
  }

  predicate StartsWith(s: string, prefix: string) {
    |prefix| <= |s| && s[..|prefix|] == prefix
  }

  /** No piece of a split holds the separator. */
  lemma {:induction false} SplitPiecesWithoutSep(s: string, sep: char)
    ensures forall k :: 0 <= k < |Split(s, sep)| ==> sep !in Split(s, sep)[k]
    decreases |s|
  {
    var i := IndexOf(s, sep);
    IndexOfFirst(s, sep);
    if i < |s| {
      SplitPiecesWithoutSep(s[i + 1..], sep);
      assert sep !in s[..i];
    }
  }

  /** Joining the pieces of a split gives back the string. */
  lemma {:induction false} JoinSplit(s: string, sep: char)
    ensures Join(Split(s, sep), sep) == s
    decreases |s|
  {
    var i := IndexOf(s, sep);
    if i < |s| {
      var pieces := Split(s, sep);
      var rest := Split(s[i + 1..], sep);
      assert pieces == [s[..i]] + rest;
      assert pieces[1..] == rest;
      JoinSplit(s[i + 1..], sep);
      assert Join(pieces, sep) == s[..i] + [sep] + s[i + 1..];
      assert s == s[..i] + [sep] + s[i + 1..];
    }
  }

  lemma {:induction false} CountAppend(a: string, b: string, c: char)
    ensures Count(a + b, c) == Count(a, c) + Count(b, c)
    decreases |a|
  {
    if a == [] {
      assert a + b == b;
    } else {
      assert (a + b)[1..] == a[1..] + b;
      CountAppend(a[1..], b, c);
    }
  }

  lemma {:induction false} CountAbsent(s: string, c: char)
    requires forall k :: 0 <= k < |s| ==> s[k] != c
    ensures Count(s, c) == 0
    decreases |s|
  {
    if s != [] {
      CountAbsent(s[1..], c);
    }
  }

  /** A split has one more piece than there are separators. */
  lemma {:induction false} SplitCount(s: string, sep: char)
    ensures |Split(s, sep)| == Count(s, sep) + 1
    decreases |s|
  {
    var i := IndexOf(s, sep);
    if i < |s| {
      SplitCount(s[i + 1..], sep);
      assert s == s[..i] + ([sep] + s[i + 1..]);
      CountAppend(s[..i], [sep] + s[i + 1..], sep);
      IndexOfFirst(s, sep);
      CountAbsent(s[..i], sep);
      assert ([sep] + s[i + 1..])[1..] == s[i + 1..];
    } else {
      IndexOfFirst(s, sep);
      CountAbsent(s, sep);
    }
  }

  /** A string without the separator splits into itself alone. */
  lemma SplitWithoutSep(s: string, sep: char)
    requires sep !in s
    ensures Split(s, sep) == [s]
  {
    assert IndexOf(s, sep) == |s|;
  }

  /** Text appended after a string does not move its first `c`. */
  lemma {:induction false} IndexOfAppend(a: string, t: string, c: char)
    requires IndexOf(a, c) < |a|
    ensures IndexOf(a + t, c) == IndexOf(a, c)
    decreases |a|
  {
    if a[0] != c {
      assert (a + t)[1..] == a[1..] + t;
      IndexOfAppend(a[1..], t, c);
    }
  }

  /** The first `c` after a `c`-free prefix is the one that follows it. */
  lemma {:induction false} IndexOfAfterFree(a: string, t: string, c: char)
    requires IndexOf(a, c) == |a|
    ensures IndexOf(a + [c] + t, c) == |a|
    decreases |a|
  {
    if a != [] {
      assert (a + [c] + t)[1..] == a[1..] + [c] + t;
      IndexOfAfterFree(a[1..], t, c);
    }
  }

  /** The part before the first `c` holds no `c`. */
  lemma {:induction false} IndexOfPrefix(s: string, c: char)
    ensures IndexOf(s[..IndexOf(s, c)], c) == IndexOf(s, c)
    decreases |s|
  {
    if s != [] && s[0] != c {
      var i := IndexOf(s, c);
      assert s[..i][1..] == s[1..][..i - 1];
      IndexOfPrefix(s[1..], c);
    }
  }

  /** Splitting at a separator after a separator-free prefix. */
  lemma SplitAroundFree(a: string, b: string, sep: char)
    requires IndexOf(a, sep) == |a|
    ensures Split(a + [sep] + b, sep) == [a] + Split(b, sep)
  {
    var s := a + [sep] + b;
    IndexOfAfterFree(a, b, sep);
    assert s[..|a|] == a && s[|a| + 1..] == b;
  }

  lemma SplitAroundHit(p: string, t: string, b: string, sep: char)
    requires IndexOf(p, sep) == |p|
    requires Split(t + [sep] + b, sep) == Split(t, sep) + Split(b, sep)
    ensures Split(p + [sep] + t + [sep] + b, sep) == Split(p + [sep] + t, sep) + Split(b, sep)
  {
    Seqs.Regroup(p, t, b, sep);
    SplitAroundFree(p, t + [sep] + b, sep);
    SplitAroundFree(p, t, sep);
    Seqs.Regroup3([p], Split(t, sep), Split(b, sep));
  }

  /** Splitting distributes over a separator placed between two strings. */
  lemma {:induction false} SplitAround(a: string, b: string, sep: char)
    ensures Split(a + [sep] + b, sep) == Split(a, sep) + Split(b, sep)
    decreases |a|
  {
    var i := IndexOf(a, sep);
    if i < |a| {
      var p, t := a[..i], a[i + 1..];
      Seqs.SliceAround(a, i);
      IndexOfPrefix(a, sep);
      SplitAround(t, b, sep);
      SplitAroundHit(p, t, b, sep);
    } else {
      SplitAroundFree(a, b, sep);
      assert Split(a, sep) == [a];
    }
  }

  /** Each piece of a split is no longer than the string. */
  lemma {:induction false} SplitPieceLength(s: string, sep: char)
    ensures forall k :: 0 <= k < |Split(s, sep)| ==> |Split(s, sep)[k]| <= |s|
    decreases |s|
  {
    var i := IndexOf(s, sep);
    if i < |s| {
      SplitPieceLength(s[i + 1..], sep);
    }
  }

  /** When the separator occurs, the last piece is strictly shorter than the string. */
  lemma LastSegmentShorter(s: string, sep: char)
    requires sep in s
    ensures |LastSegment(s, sep)| < |s|
  {
    IndexOfFirst(s, sep);
    var i := IndexOf(s, sep);
    assert i < |s|;
    var rest := Split(s[i + 1..], sep);
    assert Split(s, sep) == [s[..i]] + rest;
    assert LastSegment(s, sep) == rest[|rest| - 1];
    SplitPieceLength(s[i + 1..], sep);
  }

  /** The last piece after a separator is the last piece of what follows it. */
  lemma LastSegmentAfter(a: string, b: string, sep: char)
    ensures LastSegment(a + [sep] + b, sep) == LastSegment(b, sep)
  {
    SplitAround(a, b, sep);
  }

  /** Whitespace as Python's `str.isspace` defines it. */
  predicate IsSpace(c: char) {
    || c == ' ' || '\t' <= c <= '\r' || '\U{1C}' <= c <= '\U{1F}'
    || c == '\U{85}' || c == '\U{A0}' || c == '\U{1680}' || '\U{2000}' <= c <= '\U{200A}'
    || c == '\U{2028}' || c == '\U{2029}' || c == '\U{202F}' || c == '\U{205F}' || c == '\U{3000}'
  }

  predicate AllSpace(s: string) {
    forall k :: 0 <= k < |s| ==> IsSpace(s[k])
  }

  /** Neither starts nor ends with whitespace. */
  predicate IsStripped(s: string) {
    s == [] || (!IsSpace(s[0]) && !IsSpace(s[|s| - 1]))
  }

  /** `s.lstrip()`: the suffix left after the leading whitespace. */
  function TrimStart(s: string): (r: string)
    ensures |r| <= |s| && r == s[|s| - |r|..]
    ensures r == [] || !IsSpace(r[0])
    decreases |s|
  {
    if s != [] && IsSpace(s[0]) then TrimStart(s[1..]) else s
  }

  /** `s.rstrip()`: the prefix left before the trailing whitespace. */
  function TrimEnd(s: string): (r: string)
    ensures |r| <= |s| && r == s[..|r|]
    ensures r == [] || !IsSpace(r[|r| - 1])
    decreases |s|
  {
    if s != [] && IsSpace(s[|s| - 1]) then TrimEnd(s[..|s| - 1]) else s
  }

  /** `s.strip()` */
  function Strip(s: string): (r: string)
    ensures IsStripped(r)
  {
    TrimEnd(TrimStart(s))
  }

  /** Only whitespace is removed from the start. */
  lemma {:induction false} TrimStartRemovesSpace(s: string)
    ensures AllSpace(s[..|s| - |TrimStart(s)|])
    decreases |s|
  {
    if s != [] && IsSpace(s[0]) {
      TrimStartRemovesSpace(s[1..]);
      var n := |s| - |TrimStart(s)|;
      forall k | 0 <= k < n ensures IsSpace(s[..n][k]) {
        if k > 0 { assert s[..n][k] == s[1..][..n - 1][k - 1]; }
      }
    }
  }

  /** Only whitespace is removed from the end. */
  lemma {:induction false} TrimEndRemovesSpace(s: string)
    ensures AllSpace(s[|TrimEnd(s)|..])
    decreases |s|
  {
    if s != [] && IsSpace(s[|s| - 1]) {
      var t := s[..|s| - 1];
      TrimEndRemovesSpace(t);
      var n := |TrimEnd(s)|;
      forall k | 0 <= k < |s| - n ensures IsSpace(s[n..][k]) {
        if k < |s| - n - 1 { assert s[n..][k] == t[n..][k]; }
      }
    }
  }

  /**
   * What `Strip` removes: the result is the slice `s[i..i + |r|]`, everything
   * before and after it is whitespace, and it neither starts nor ends with whitespace.
   */
  lemma StripSlice(s: string) returns (i: nat)
    ensures i + |Strip(s)| <= |s| && Strip(s) == s[i..i + |Strip(s)|]
    ensures AllSpace(s[..i]) && AllSpace(s[i + |Strip(s)|..])
  {
    var t := TrimStart(s);
    var r := TrimEnd(t);
    TrimStartRemovesSpace(s);
    TrimEndRemovesSpace(t);
    i := |s| - |t|;
    Seqs.SliceOfSlice(s, i, |r|);
  }

}
