/**
 * The handful of JavaScript string operations the application relies on,
 * with their ECMAScript meaning: `split` on one character, `join`,
 * `trim`, `startsWith`/`endsWith`, the `||` fallback on strings and the
 * UTF-16 `length`.
 */
module Text {
  import opened Wrappers

  /** The code points `String.prototype.trim` removes: ECMAScript WhiteSpace and LineTerminator. */
  predicate IsWhitespace(c: char) {
    || c == '\t' || c == '\n' || c == '\U{000B}' || c == '\U{000C}' || c == '\r' || c == ' '
    || c == '\U{00A0}' || c == '\U{1680}' || ('\U{2000}' <= c <= '\U{200A}')
    || c == '\U{2028}' || c == '\U{2029}' || c == '\U{202F}' || c == '\U{205F}'
    || c == '\U{3000}' || c == '\U{FEFF}'
  }

  /** A string that `trim()` turns into "" (JavaScript treats "" as false). */
  predicate IsBlank(s: string) {
    forall i :: 0 <= i < |s| ==> IsWhitespace(s[i])
  }

  predicate StartsWith(s: string, prefix: string) {
    |prefix| <= |s| && s[..|prefix|] == prefix
  }

  predicate EndsWith(s: string, suffix: string) {
    |suffix| <= |s| && s[|s| - |suffix|..] == suffix
  }

  /** `s.trimStart()`: drops the leading whitespace and nothing else. */
  function TrimStart(s: string): (r: string)
    ensures |r| <= |s| && r == s[|s| - |r|..]
    ensures forall i :: 0 <= i < |s| - |r| ==> IsWhitespace(s[i])
    ensures r != [] ==> !IsWhitespace(r[0])
  {
    if s != [] && IsWhitespace(s[0]) then TrimStart(s[1..]) else s
  }

  /** `s.trimEnd()`: drops the trailing whitespace and nothing else. */
  function TrimEnd(s: string): (r: string)
    ensures |r| <= |s| && r == s[..|r|]
    ensures forall i :: |r| <= i < |s| ==> IsWhitespace(s[i])
    ensures r != [] ==> !IsWhitespace(r[|r| - 1])
  {
    if s != [] && IsWhitespace(s[|s| - 1]) then TrimEnd(s[..|s| - 1]) else s
  }

  /** `s.trim()`. */
  function Trim(s: string): (r: string)
    ensures r == [] <==> IsBlank(s)
    ensures r != [] ==> !IsWhitespace(r[0]) && !IsWhitespace(r[|r| - 1])
    ensures exists i, j :: 0 <= i <= j <= |s| && r == s[i..j] && IsBlank(s[..i]) && IsBlank(s[j..])
  {
    var t := TrimStart(s);
    var r := TrimEnd(t);
    var i := |s| - |t|;
    var j := i + |r|;
    assert r != [] ==> r[0] == t[0];
    TrimBounds(s, t, r);
    assert r == s[i..j] && IsBlank(s[..i]) && IsBlank(s[j..]);
    r
  }

  /**
   * Cutting a blank prefix (the `trimStart` step, `t`) and then a blank
   * suffix (the `trimEnd` step, `r`) leaves the text between them.
   */
  lemma {:induction false} TrimBounds(s: string, t: string, r: string)
    requires |t| <= |s| && t == s[|s| - |t|..]
    requires forall k :: 0 <= k < |s| - |t| ==> IsWhitespace(s[k])
    requires |r| <= |t| && r == t[..|r|]
    requires forall k :: |r| <= k < |t| ==> IsWhitespace(t[k])
    requires r != [] ==> !IsWhitespace(r[0]) && !IsWhitespace(r[|r| - 1])
    ensures r != [] ==> !IsWhitespace(r[0]) && !IsWhitespace(r[|r| - 1])
    ensures var i := |s| - |t|;
      && r == s[i..i + |r|] && IsBlank(s[..i]) && IsBlank(s[i + |r|..])
      && (r == [] <==> IsBlank(s))
  {
    var i := |s| - |t|;
    var j := i + |r|;
    assert r == s[i..j];
    forall k | 0 <= k < i ensures IsWhitespace(s[..i][k]) {
      assert IsWhitespace(s[k]);
    }
    forall k | 0 <= k < |s| - j ensures IsWhitespace(s[j..][k]) {
      assert s[j..][k] == t[|r| + k];
      assert IsWhitespace(t[|r| + k]);
    }
    if r == [] {
      assert s == s[..i] + s[j..];
      BlankAppend(s[..i], s[j..]);
    } else {
      assert r[0] == s[i];
    }
  }

  lemma {:induction false} BlankAppend(a: string, b: string)
    requires IsBlank(a) && IsBlank(b)
    ensures IsBlank(a + b)
  {
    forall k | 0 <= k < |a + b| ensures IsWhitespace((a + b)[k]) {
      if k < |a| {
        assert (a + b)[k] == a[k];
      } else {
        assert (a + b)[k] == b[k - |a|];
      }
    }
  }

  /** Trimming changes nothing when both ends are already non-whitespace. */
  lemma TrimKeeps(s: string)
    requires s != [] && !IsWhitespace(s[0]) && !IsWhitespace(s[|s| - 1])
    ensures Trim(s) == s
  {
  }

  /** Trimming a string that ends in one extra space removes exactly that space. */
  lemma {:induction false} TrimDropsTrailingSpace(s: string)
    requires s != [] && !IsWhitespace(s[0]) && !IsWhitespace(s[|s| - 1])
    ensures Trim(s + " ") == s
  {
    var t := s + " ";
    assert TrimStart(t) == t;
    assert t[..|t| - 1] == s;
    assert TrimEnd(t) == TrimEnd(s);
  }

  /** JavaScript truthiness of a string that may be absent: present and non-empty. */
  predicate Filled(a: Option<string>) {
    a.Some? && a.value != ""
  }

  /** The JavaScript `a || fallback` on a string that may be absent: "" and absence both fall back. */
  function OrElse(a: Option<string>, fallback: string): (r: string)
    ensures a.Some? && a.value != "" ==> r == a.value
    ensures a.None? || a.value == "" ==> r == fallback
  {
    if a.Some? && a.value != "" then a.value else fallback
  }

  /** `s.length`: the number of UTF-16 code units, two for a code point above U+FFFF. */
  function JsLength(s: string): (n: nat)
    ensures |s| <= n <= 2 * |s|
    ensures n == 0 <==> s == []
    ensures |s| == 1 ==> n == Utf16Units(s[0])
  {
    if s == [] then 0 else Utf16Units(s[0]) + JsLength(s[1..])
  }

  /** The UTF-16 code units of one code point: a surrogate pair above U+FFFF. */
  function Utf16Units(c: char): nat {
    if c as int > 0xFFFF then 2 else 1
  }

  /** `(a + b).length == a.length + b.length`. */
  lemma {:induction false} JsLengthAppend(a: string, b: string)
    ensures JsLength(a + b) == JsLength(a) + JsLength(b)
  {
    if a == [] {
      assert a + b == b;
    } else {
      assert (a + b)[1..] == a[1..] + b;
      JsLengthAppend(a[1..], b);
    }
  }

  /** Text made only of code points up to U+FFFF has one code unit per code point. */
  lemma {:induction false} JsLengthBmp(s: string)
    requires forall i :: 0 <= i < |s| ==> s[i] as int <= 0xFFFF
    ensures JsLength(s) == |s|
  {
    if s != [] {
      JsLengthBmp(s[1..]);
    }
  }

  /**
   * `s.split(sep)` for a one-character separator: the pieces between
   * separators, in order; "" splits into [""], and two adjacent separators
   * produce an empty piece.
   */
  function Split(s: string, sep: char): (pieces: seq<string>)
    ensures |pieces| >= 1
    ensures forall p :: p in pieces ==> sep !in p
  {
    if s == [] then [[]]
    else
      var rest := Split(s[1..], sep);
      if s[0] == sep then [[]] + rest
      else
        var first := [s[0]] + rest[0];
        assert sep !in first by { assert rest[0] in rest; }
        assert forall p :: p in rest[1..] ==> p in rest;
        [first] + rest[1..]
  }

  /** `pieces.join(sep)`; [].join(sep) is "". */
  function Join(pieces: seq<string>, sep: string): (s: string)
  {
    if |pieces| == 0 then []
    else if |pieces| == 1 then pieces[0]
    else pieces[0] + sep + Join(pieces[1..], sep)
  }

  /** Joining the pieces of a split with the same separator gives back the string. */
  lemma {:induction false} JoinSplit(s: string, sep: char)
    ensures Join(Split(s, sep), [sep]) == s
  {
    if s != [] {
      var rest := Split(s[1..], sep);
      JoinSplit(s[1..], sep);
      if s[0] != sep && |rest| > 1 {
        assert Join(rest, [sep]) == rest[0] + [sep] + Join(rest[1..], [sep]);
        assert ([s[0]] + rest[0]) + [sep] + Join(rest[1..], [sep]) == [s[0]] + Join(rest, [sep]);
      }
    }
  }

  /** A string without the separator splits into itself. */
  lemma {:induction false} SplitWithoutSeparator(p: string, sep: char)
    requires sep !in p
    ensures Split(p, sep) == [p]
  {
    if p != [] {
      SplitWithoutSeparator(p[1..], sep);
      assert [p[0]] + p[1..] == p;
    }
  }

  /** Splitting `p + sep + t` cuts at the first separator when `p` has none. */
  lemma {:induction false} SplitAtFirstSeparator(p: string, sep: char, t: string)
    requires sep !in p
    ensures Split(p + [sep] + t, sep) == [p] + Split(t, sep)
  {
    var s := p + [sep] + t;
    if p == [] {
      assert s[1..] == t;
    } else {
      assert s[1..] == p[1..] + [sep] + t;
      SplitAtFirstSeparator(p[1..], sep, t);
      assert [p[0]] + p[1..] == p;
    }
  }

  /** Splitting a join of separator-free pieces gives back the pieces. */
  lemma {:induction false} SplitJoin(pieces: seq<string>, sep: char)
    requires |pieces| >= 1
    requires forall p :: p in pieces ==> sep !in p
    ensures Split(Join(pieces, [sep]), sep) == pieces
  {
    if |pieces| == 1 {
      SplitWithoutSeparator(pieces[0], sep);
    } else {
      assert pieces[0] in pieces;
      assert forall p :: p in pieces[1..] ==> p in pieces;
      SplitJoin(pieces[1..], sep);
      SplitAtFirstSeparator(pieces[0], sep, Join(pieces[1..], [sep]));
      assert [pieces[0]] + pieces[1..] == pieces;
    }
  }

  /** A join splits into the join of the first `n` pieces, the separator, and the join of the rest. */
  lemma {:induction false} JoinAt(pieces: seq<string>, n: nat, sep: string)
    requires 1 <= n < |pieces|
    ensures Join(pieces, sep) == Join(pieces[..n], sep) + sep + Join(pieces[n..], sep)
  {
    if n > 1 {
      JoinAt(pieces[1..], n - 1, sep);
      assert pieces[1..][..n - 1] == pieces[..n][1..];
      assert pieces[1..][n - 1..] == pieces[n..];
    }
  }
}
