/** The JavaScript string built-ins the application relies on:
    `String.prototype.split` with a one-character separator,
    `String.prototype.trim` and `String.prototype.startsWith`. */
module Text {

  import opened Wrappers

  /** The characters `trim` removes: ECMAScript's WhiteSpace (tab, vertical tab,
      form feed, the byte-order mark and every space separator of category Zs)
      and LineTerminator (line feed, carriage return, U+2028, U+2029). */
  predicate IsWhitespace(c: char) {
    || c == '\t' || c == '\n' || c == '\U{000B}' || c == '\U{000C}' || c == '\r'
    || c == ' ' || c == '\U{00A0}' || c == '\U{1680}'
    || ('\U{2000}' <= c <= '\U{200A}')
    || c == '\U{2028}' || c == '\U{2029}' || c == '\U{202F}' || c == '\U{205F}'
    || c == '\U{3000}' || c == '\U{FEFF}'
  }

  /** The index of the first character at or after `i` that is not
      whitespace, or `|s|` when there is none. */
  function SkipForward(s: string, i: nat): (k: nat)
    requires i <= |s|
    ensures i <= k <= |s|
    decreases |s| - i
  {
    if i < |s| && IsWhitespace(s[i]) then SkipForward(s, i + 1) else i
  }

  /** The end of `s[lo..j]` once its trailing whitespace is dropped. */
  function SkipBackward(s: string, lo: nat, j: nat): (k: nat)
    requires lo <= j <= |s|
    ensures lo <= k <= j
  {
    if lo < j && IsWhitespace(s[j - 1]) then SkipBackward(s, lo, j - 1) else j
  }

  /** `s.trim()`: `s` without its leading and trailing whitespace. */
  function Trim(s: string): (r: string)
    ensures |r| <= |s|
    ensures r != [] ==> !IsWhitespace(r[0]) && !IsWhitespace(r[|r| - 1])
  {
    var start := SkipForward(s, 0);
    SkipForwardSkipsWhitespace(s, 0);
    SkipBackwardSkipsWhitespace(s, start, |s|);
    s[start..SkipBackward(s, start, |s|)]
  }

  /** `SkipForward` passes over whitespace only, and stops at a character that
      is not whitespace unless it reaches the end. */
  lemma {:induction false} SkipForwardSkipsWhitespace(s: string, i: nat)
    requires i <= |s|
    ensures var k := SkipForward(s, i);
      && (forall m :: i <= m < k ==> IsWhitespace(s[m]))
      && (k < |s| ==> !IsWhitespace(s[k]))
    decreases |s| - i
  {
    if i < |s| && IsWhitespace(s[i]) {
      SkipForwardSkipsWhitespace(s, i + 1);
    }
  }

  /** `SkipBackward` passes over whitespace only, and stops after a character
      that is not whitespace unless it reaches `lo`. */
  lemma {:induction false} SkipBackwardSkipsWhitespace(s: string, lo: nat, j: nat)
    requires lo <= j <= |s|
    ensures var k := SkipBackward(s, lo, j);
      && (forall m :: k <= m < j ==> IsWhitespace(s[m]))
      && (lo < k ==> !IsWhitespace(s[k - 1]))
  {
    if lo < j && IsWhitespace(s[j - 1]) {
      SkipBackwardSkipsWhitespace(s, lo, j - 1);
    }
  }

  /** A string trims to nothing exactly when every character of it is whitespace. */
  lemma {:induction false} TrimEmptyIff(s: string)
    ensures Trim(s) == [] <==> forall i :: 0 <= i < |s| ==> IsWhitespace(s[i])
  {
    var start := SkipForward(s, 0);
    var end := SkipBackward(s, start, |s|);
    SkipForwardSkipsWhitespace(s, 0);
    SkipBackwardSkipsWhitespace(s, start, |s|);
    assert |Trim(s)| == end - start;
    if exists k :: 0 <= k < |s| && !IsWhitespace(s[k]) {
      assert start < |s|;
      assert start < end;
    } else {
      assert start == |s|;
    }
  }

  /** `s.startsWith(prefix)`. */
  predicate StartsWith(s: string, prefix: string)
    ensures StartsWith(s, prefix) <==> |prefix| <= |s| && s == prefix + s[|prefix|..]
  {
    |prefix| <= |s| && s[..|prefix|] == prefix
  }

  /** The position of the first `c` in `s`, if any (`s.indexOf(c)`, with -1 as None). */
  function IndexOf(s: string, c: char): (r: Option<nat>)
    ensures r.None? <==> c !in s
    ensures r.Some? ==> r.value < |s| && s[r.value] == c && c !in s[..r.value]
  {
    if s == [] then None
    else if s[0] == c then Some(0)
    else
      match IndexOf(s[1..], c)
      case None => None
      case Some(i) =>
        assert s[..i + 1] == [s[0]] + s[1..][..i];
        Some(i + 1)
  }

  /** The inverse of `Split`: the pieces with `sep` between consecutive ones
      (`pieces.join(sep)`). */
  function Join(pieces: seq<string>, sep: char): (r: string)
    requires |pieces| >= 1
  {
    if |pieces| == 1 then pieces[0] else pieces[0] + [sep] + Join(pieces[1..], sep)
  }

  /** `s.split(sep)` for a one-character separator: the maximal runs of
      characters other than `sep`, in order, one more than there are `sep`s. */
  function Split(s: string, sep: char): (r: seq<string>)
    ensures |r| >= 1
    ensures forall k :: 0 <= k < |r| ==> sep !in r[k]
    ensures Join(r, sep) == s
  {
    if s == [] then [[]]
    else
      var rest := Split(s[1..], sep);
      if s[0] == sep then
        assert s == [sep] + s[1..];
        [[]] + rest
      else
        var r := [[s[0]] + rest[0]] + rest[1..];
        assert r[1..] == rest[1..];
        assert s == [s[0]] + s[1..];
        r
  }

  /** Splitting a string whose first piece `a` is separator-free extends the
      first piece of the rest. */
  lemma {:induction false} SplitPrepend(a: string, t: string, sep: char)
    requires sep !in a
    ensures Split(a + t, sep) == [a + Split(t, sep)[0]] + Split(t, sep)[1..]
  {
    var p := Split(t, sep);
    if a == [] {
      assert a + t == t && a + p[0] == p[0];
      assert p == [p[0]] + p[1..];
    } else {
      var u := a[1..] + t;
      assert (a + t)[0] == a[0] && (a + t)[1..] == u;
      SplitPrepend(a[1..], t, sep);
      var rest := Split(u, sep);
      assert rest == [a[1..] + p[0]] + p[1..];
      assert Split(a + t, sep) == [[a[0]] + rest[0]] + rest[1..];
      assert [a[0]] + rest[0] == a + p[0];
    }
  }

  /** Splitting takes off the text before the first separator as its first piece. */
  lemma {:induction false} SplitAtSeparator(a: string, t: string, sep: char)
    requires sep !in a
    ensures Split(a + [sep] + t, sep) == [a] + Split(t, sep)
  {
    var u := [sep] + t;
    assert u[0] == sep && u[1..] == t;
    var q := Split(u, sep);
    assert q == [[]] + Split(t, sep);
    assert q[0] == [] && q[1..] == Split(t, sep);
    SplitPrepend(a, u, sep);
    assert a + q[0] == a;
    assert a + [sep] + t == a + u;
  }

  /** `Split` undoes `Join` when no piece contains the separator, so the pieces
      of a string are determined by it. */
  lemma {:induction false} SplitJoin(pieces: seq<string>, sep: char)
    requires |pieces| >= 1
    requires forall k :: 0 <= k < |pieces| ==> sep !in pieces[k]
    ensures Split(Join(pieces, sep), sep) == pieces
  {
    if |pieces| == 1 {
      SplitPrepend(pieces[0], [], sep);
      assert pieces[0] + [] == pieces[0];
    } else {
      SplitJoin(pieces[1..], sep);
      SplitAtSeparator(pieces[0], Join(pieces[1..], sep), sep);
      assert pieces == [pieces[0]] + pieces[1..];
    }
  }

  /** The first piece of `s` is the text before its first separator, or all of
      `s` when there is none. */
  lemma {:induction false} SplitFirstPiece(s: string, sep: char)
    ensures IndexOf(s, sep).None? ==> Split(s, sep) == [s]
    ensures IndexOf(s, sep).Some? ==>
      var i := IndexOf(s, sep).value;
      Split(s, sep) == [s[..i]] + Split(s[i + 1..], sep)
  {
    match IndexOf(s, sep)
    case None =>
      SplitPrepend(s, [], sep);
      assert s + [] == s;
    case Some(i) =>
      assert s == s[..i] + [sep] + s[i + 1..];
      SplitAtSeparator(s[..i], s[i + 1..], sep);
  }
}
