/**
 * `URLSearchParams` and `FormData` as the ordered lists of name/value
 * pairs they are: `get` answers the first pair with the name, `append`
 * adds at the end, `delete` removes every pair with the name, and `set`
 * overwrites the first such pair and removes the others (or appends when
 * there is none). `toString` is the application/x-www-form-urlencoded
 * serialisation.
 */
module Params {
  import opened Wrappers
  import opened Text

  datatype Pair = Pair(name: string, value: string)

  /** `i` is the index of the first pair named `name`. */
  predicate FirstAt(ps: seq<Pair>, name: string, i: int) {
    0 <= i < |ps| && ps[i].name == name && forall j :: 0 <= j < i ==> ps[j].name != name
  }

  /** `params.get(name)`: the value of the first pair with that name; absent gives null. */
  function Get(ps: seq<Pair>, name: string): (r: Option<string>)
    ensures r.None? <==> forall i :: 0 <= i < |ps| ==> ps[i].name != name
    ensures r.Some? ==> exists i :: FirstAt(ps, name, i) && ps[i].value == r.value
  {
    if ps == [] then None
    else if ps[0].name == name then
      assert FirstAt(ps, name, 0);
      Some(ps[0].value)
    else
      var r := Get(ps[1..], name);
      assert forall i :: 0 < i < |ps| ==> ps[i] == ps[1..][i - 1];
      if r.Some? then
        var i :| FirstAt(ps[1..], name, i) && ps[1..][i].value == r.value;
        assert FirstAt(ps, name, i + 1);
        r
      else r
  }

  /** `params.append(name, value)`. */
  function Append(ps: seq<Pair>, name: string, value: string): seq<Pair> {
    ps + [Pair(name, value)]
  }

  /** `params.delete(name)`: every pair with that name goes, the others keep their order. */
  function Delete(ps: seq<Pair>, name: string): (r: seq<Pair>)
    ensures forall p :: p in r <==> p in ps && p.name != name
    ensures |r| <= |ps|
    ensures |ps| == 1 ==> r == (if ps[0].name == name then [] else ps)
  {
    if ps == [] then []
    else if ps[0].name == name then Delete(ps[1..], name)
    else
      assert forall p :: p in ps <==> p == ps[0] || p in ps[1..];
      [ps[0]] + Delete(ps[1..], name)
  }

  /**
   * Deleting works pair by pair and keeps the order: together with the
   * one-pair case of `Delete`, this fixes the result for every list.
   */
  lemma {:induction false} DeleteAppend(a: seq<Pair>, b: seq<Pair>, name: string)
    ensures Delete(a + b, name) == Delete(a, name) + Delete(b, name)
  {
    if a == [] {
      assert a + b == b;
    } else {
      assert (a + b)[1..] == a[1..] + b;
      DeleteAppend(a[1..], b, name);
    }
  }

  /** A list whose only pair named `name` sits between two lists without one has that pair at exactly one index. */
  lemma {:induction false} OneNamedPair(before: seq<Pair>, p: Pair, after: seq<Pair>)
    requires forall k :: 0 <= k < |before| ==> before[k].name != p.name
    requires forall q :: q in after ==> q.name != p.name
    ensures var r := before + [p] + after;
      forall k, l :: 0 <= k < |r| && 0 <= l < |r| && r[k].name == p.name && r[l].name == p.name ==> k == l
  {
    var r := before + [p] + after;
    forall k | 0 <= k < |r| && k != |before| ensures r[k].name != p.name {
      if k < |before| {
        assert r[k] == before[k];
      } else {
        assert r[k] == after[k - |before| - 1];
        assert r[k] in after;
      }
    }
  }

  /** The first pair named `name` gets `value`; later pairs with the name are removed. */
  function ReplaceFirst(ps: seq<Pair>, name: string, value: string): (r: seq<Pair>)
    ensures |r| <= |ps|
  {
    if ps == [] then []
    else if ps[0].name == name then [Pair(name, value)] + Delete(ps[1..], name)
    else [ps[0]] + ReplaceFirst(ps[1..], name, value)
  }

  /** The replaced pair stays where the first pair with the name was. */
  lemma ReplaceFirstInPlace(ps: seq<Pair>, name: string, value: string, i: int)
    requires FirstAt(ps, name, i)
    ensures ReplaceFirst(ps, name, value) == ps[..i] + [Pair(name, value)] + Delete(ps[i + 1..], name)
  {
    SplitAt(ps, i);
    ReplaceFirstSplit(ps[..i], ps[i], ps[i + 1..], value);
  }

  lemma {:induction false} ReplaceFirstSplit(before: seq<Pair>, p: Pair, after: seq<Pair>, value: string)
    requires forall k :: 0 <= k < |before| ==> before[k].name != p.name
    ensures ReplaceFirst(before + [p] + after, p.name, value) == before + [Pair(p.name, value)] + Delete(after, p.name)
  {
    var ps := before + [p] + after;
    if before == [] {
      assert ps == [p] + after;
    } else {
      var rest := before[1..];
      assert ps[0] == before[0] && ps[1..] == rest + [p] + after;
      assert forall k :: 0 <= k < |rest| ==> rest[k] == before[k + 1];
      ReplaceFirstSplit(rest, p, after, value);
      assert before == [before[0]] + rest;
    }
  }

  /** `get` answers the value of the pair at the first index with the name. */
  lemma {:induction false} GetAt(ps: seq<Pair>, name: string, i: int)
    requires FirstAt(ps, name, i)
    ensures Get(ps, name) == Some(ps[i].value)
  {
    if i > 0 {
      FirstAtTail(ps, name, i);
      GetAt(ps[1..], name, i - 1);
    }
  }

  lemma {:induction false} FirstAtTail(ps: seq<Pair>, name: string, i: int)
    requires FirstAt(ps, name, i) && i > 0
    ensures ps[0].name != name && FirstAt(ps[1..], name, i - 1)
  {
    forall j | 0 <= j < i - 1 ensures ps[1..][j].name != name {
      assert ps[1..][j] == ps[j + 1];
    }
  }

  /**
   * `params.set(name, value)`: the first pair with the name takes the value in
   * place and the later ones go; without one, the pair is appended. Either
   * way exactly one pair carries the name afterwards.
   */
  function Set(ps: seq<Pair>, name: string, value: string): (r: seq<Pair>)
    ensures Get(r, name) == Some(value)
    ensures Delete(r, name) == Delete(ps, name)
    ensures Get(ps, name).None? ==> r == ps + [Pair(name, value)]
    ensures forall i :: FirstAt(ps, name, i) ==> r == ps[..i] + [Pair(name, value)] + Delete(ps[i + 1..], name)
    ensures forall k, l :: 0 <= k < |r| && 0 <= l < |r| && r[k].name == name && r[l].name == name ==> k == l
  {
    if Get(ps, name).Some? then
      SetInPlace(ps, name, value);
      ReplaceFirst(ps, name, value)
    else
      SetAppends(ps, name, value);
      ps + [Pair(name, value)]
  }

  /** There is only one first index. */
  lemma FirstAtUnique(ps: seq<Pair>, name: string, i: int, j: int)
    requires FirstAt(ps, name, i) && FirstAt(ps, name, j)
    ensures i == j
  {
  }

  lemma SetInPlace(ps: seq<Pair>, name: string, value: string)
    requires Get(ps, name).Some?
    ensures var r := ReplaceFirst(ps, name, value);
      && Get(r, name) == Some(value)
      && Delete(r, name) == Delete(ps, name)
      && (forall i :: FirstAt(ps, name, i) ==> r == ps[..i] + [Pair(name, value)] + Delete(ps[i + 1..], name))
      && (forall k, l :: 0 <= k < |r| && 0 <= l < |r| && r[k].name == name && r[l].name == name ==> k == l)
  {
    var i :| FirstAt(ps, name, i) && ps[i].value == Get(ps, name).value;
    ReplaceFirstInPlace(ps, name, value, i);
    forall j | FirstAt(ps, name, j)
      ensures ReplaceFirst(ps, name, value) == ps[..j] + [Pair(name, value)] + Delete(ps[j + 1..], name)
    {
      FirstAtUnique(ps, name, i, j);
    }
    ReplacedPairs(ps, name, value, i);
  }

  /** What the list looks like with the first pair named `name` replaced: `get`, `delete` and the count of named pairs. */
  lemma ReplacedPairs(ps: seq<Pair>, name: string, value: string, i: int)
    requires FirstAt(ps, name, i)
    ensures var r := ps[..i] + [Pair(name, value)] + Delete(ps[i + 1..], name);
      && Get(r, name) == Some(value)
      && Delete(r, name) == Delete(ps, name)
      && (forall k, l :: 0 <= k < |r| && 0 <= l < |r| && r[k].name == name && r[l].name == name ==> k == l)
  {
    var before, after, p := ps[..i], ps[i + 1..], Pair(name, value);
    assert forall k :: 0 <= k < |before| ==> before[k] == ps[k];
    GetSplit(before, p, Delete(after, name));
    SplitAt(ps, i);
    DeleteSplit(before, ps[i], p, after);
    OneNamedPair(before, p, Delete(after, name));
  }

  lemma SplitAt(ps: seq<Pair>, i: int)
    requires 0 <= i < |ps|
    ensures ps == ps[..i] + [ps[i]] + ps[i + 1..]
  {
  }

  /** `get` finds a pair that no earlier pair shares its name with. */
  lemma GetSplit(before: seq<Pair>, p: Pair, after: seq<Pair>)
    requires forall k :: 0 <= k < |before| ==> before[k].name != p.name
    ensures Get(before + [p] + after, p.name) == Some(p.value)
  {
    var r := before + [p] + after;
    assert forall j :: 0 <= j < |before| ==> r[j] == before[j];
    assert r[|before|] == p;
    GetAt(r, p.name, |before|);
  }

  /** Swapping the first named pair and deleting later ones leaves the same pairs once the name is deleted. */
  lemma DeleteSplit(before: seq<Pair>, x: Pair, p: Pair, after: seq<Pair>)
    requires forall k :: 0 <= k < |before| ==> before[k].name != p.name
    requires x.name == p.name
    ensures Delete(before + [p] + Delete(after, p.name), p.name) == Delete(before + [x] + after, p.name)
  {
    var name := p.name;
    DeleteAppend(before + [x], after, name);
    DeleteAppend(before, [x], name);
    DeleteAppend(before + [p], Delete(after, name), name);
    DeleteAppend(before, [p], name);
    DeleteTwice(after, name);
    DeleteNone(before, name);
  }

  /** Deleting a name no pair carries changes nothing. */
  lemma {:induction false} DeleteNone(ps: seq<Pair>, name: string)
    requires forall k :: 0 <= k < |ps| ==> ps[k].name != name
    ensures Delete(ps, name) == ps
  {
    if ps != [] {
      assert forall k :: 0 <= k < |ps[1..]| ==> ps[1..][k] == ps[k + 1];
      DeleteNone(ps[1..], name);
      assert ps == [ps[0]] + ps[1..];
    }
  }

  lemma SetAppends(ps: seq<Pair>, name: string, value: string)
    requires Get(ps, name).None?
    ensures var r := ps + [Pair(name, value)];
      && Get(r, name) == Some(value)
      && Delete(r, name) == Delete(ps, name)
      && (forall k, l :: 0 <= k < |r| && 0 <= l < |r| && r[k].name == name && r[l].name == name ==> k == l)
  {
    AppendDelete(ps, name, value);
    GetAppend(ps, name, value);
    OneNamedPair(ps, Pair(name, value), []);
    assert ps + [Pair(name, value)] + [] == ps + [Pair(name, value)];
  }

  lemma {:induction false} DeleteTwice(ps: seq<Pair>, name: string)
    ensures Delete(Delete(ps, name), name) == Delete(ps, name)
  {
    if ps != [] {
      DeleteTwice(ps[1..], name);
      if ps[0].name != name {
        assert ([ps[0]] + Delete(ps[1..], name))[1..] == Delete(ps[1..], name);
      }
    }
  }

  lemma {:induction false} AppendDelete(ps: seq<Pair>, name: string, value: string)
    ensures Delete(ps + [Pair(name, value)], name) == Delete(ps, name)
  {
    if ps == [] {
      assert [Pair(name, value)][1..] == [];
    } else {
      assert (ps + [Pair(name, value)])[1..] == ps[1..] + [Pair(name, value)];
      AppendDelete(ps[1..], name, value);
    }
  }

  lemma {:induction false} GetAppend(ps: seq<Pair>, name: string, value: string)
    requires Get(ps, name).None?
    ensures Get(ps + [Pair(name, value)], name) == Some(value)
  {
    if ps != [] {
      assert (ps + [Pair(name, value)])[1..] == ps[1..] + [Pair(name, value)];
      GetAppend(ps[1..], name, value);
    }
  }

  /** After `delete(name)` there is nothing left to `get` under that name. */
  lemma {:induction false} GetAfterDelete(ps: seq<Pair>, name: string)
    ensures Get(Delete(ps, name), name) == None
  {
    var r := Delete(ps, name);
    forall i | 0 <= i < |r| ensures r[i].name != name {
      assert r[i] in r;
    }
  }

  /** Characters the urlencoded serialiser leaves as they are. */
  predicate IsUnreserved(c: char) {
    ('a' <= c <= 'z') || ('A' <= c <= 'Z') || ('0' <= c <= '9')
    || c == '*' || c == '-' || c == '.' || c == '_'
  }

  /** What the serialiser can emit: unreserved characters, '+' and percent escapes. */
  predicate IsEncodedChar(c: char) {
    IsUnreserved(c) || c == '+' || c == '%'
  }

  function HexDigit(d: nat): (c: char)
    requires d < 16
    ensures IsUnreserved(c)
  {
    if d < 10 then ('0' as int + d) as char else ('A' as int + d - 10) as char
  }

  /** One byte as "%XY" with upper-case hexadecimal digits. */
  function Percent(b: nat): (r: string)
    requires b < 256
    ensures |r| == 3 && r[0] == '%'
    ensures forall c :: c in r ==> IsEncodedChar(c)
  {
    ['%', HexDigit(b / 16), HexDigit(b % 16)]
  }

  /** The UTF-8 encoding of one code point. */
  function Utf8(c: char): (bytes: seq<nat>)
    ensures 1 <= |bytes| <= 4
    ensures forall i :: 0 <= i < |bytes| ==> bytes[i] < 256
  {
    var n := c as int;
    if n < 0x80 then [n]
    else if n < 0x800 then [0xC0 + n / 64, 0x80 + n % 64]
    else if n < 0x10000 then [0xE0 + n / 4096, 0x80 + (n / 64) % 64, 0x80 + n % 64]
    else [0xF0 + n / 262144, 0x80 + (n / 4096) % 64, 0x80 + (n / 64) % 64, 0x80 + n % 64]
  }

  function PercentAll(bytes: seq<nat>): (r: string)
    requires forall i :: 0 <= i < |bytes| ==> bytes[i] < 256
    ensures |r| == 3 * |bytes|
    ensures forall c :: c in r ==> IsEncodedChar(c)
  {
    if bytes == [] then [] else Percent(bytes[0]) + PercentAll(bytes[1..])
  }

  /** The application/x-www-form-urlencoded byte serialiser, one string. */
  function Encode(s: string): (r: string)
    ensures |s| <= |r|
    ensures forall c :: c in r ==> IsEncodedChar(c)
  {
    if s == [] then []
    else
      var head := if IsUnreserved(s[0]) then [s[0]] else if s[0] == ' ' then "+" else PercentAll(Utf8(s[0]));
      head + Encode(s[1..])
  }

  // ---- reading the serialisation back ----

  /** The value of one hexadecimal digit, either case. */
  function HexValue(c: char): (d: Option<nat>)
    ensures d.Some? ==> d.value < 16 && IsUnreserved(c)
  {
    if '0' <= c <= '9' then Some(c as int - '0' as int)
    else if 'A' <= c <= 'F' then Some(c as int - 'A' as int + 10)
    else if 'a' <= c <= 'f' then Some(c as int - 'a' as int + 10)
    else None
  }

  /** The byte a "%XY" escape at the start of `r` stands for. */
  function EscapedByte(r: string): (b: Option<nat>)
    requires |r| >= 3
    ensures b.Some? ==> b.value < 256 && r[0] == '%'
  {
    var hi := HexValue(r[1]);
    var lo := HexValue(r[2]);
    if r[0] == '%' && hi.Some? && lo.Some? then Some(16 * hi.value + lo.value) else None
  }

  /** The bytes of `n` escapes in a row. */
  function EscapedBytes(r: string, n: nat): (bytes: Option<seq<nat>>)
    requires |r| >= 3 * n
    ensures bytes.Some? ==> |bytes.value| == n && forall i :: 0 <= i < n ==> bytes.value[i] < 256
  {
    if n == 0 then Some([])
    else
      var b := EscapedByte(r[..3]);
      var rest := EscapedBytes(r[3..], n - 1);
      if b.Some? && rest.Some? then Some([b.value] + rest.value) else None
  }

  /** How many bytes a UTF-8 sequence with this lead byte has; None for a byte no sequence starts with. */
  function SequenceLength(lead: nat): (n: Option<nat>)
    ensures n.Some? ==> 1 <= n.value <= 4
  {
    if lead < 0x80 then Some(1)
    else if 0xC0 <= lead < 0xE0 then Some(2)
    else if 0xE0 <= lead < 0xF0 then Some(3)
    else if 0xF0 <= lead < 0xF8 then Some(4)
    else None
  }

  predicate IsScalarValue(x: int) {
    0 <= x < 0xD800 || 0xE000 <= x < 0x11_0000
  }

  /** The code point a UTF-8 sequence spells, when its continuation bytes are well formed. */
  function DecodeSequence(bytes: seq<nat>): (c: Option<char>)
    requires 1 <= |bytes| <= 4
  {
    var b: seq<int> := bytes;
    var x :=
      if |b| == 1 then b[0]
      else if |b| == 2 then (b[0] - 0xC0) * 64 + (b[1] - 0x80)
      else if |b| == 3 then (b[0] - 0xE0) * 4096 + (b[1] - 0x80) * 64 + (b[2] - 0x80)
      else (b[0] - 0xF0) * 262144 + (b[1] - 0x80) * 4096 + (b[2] - 0x80) * 64 + (b[3] - 0x80);
    if (forall i :: 1 <= i < |bytes| ==> 0x80 <= bytes[i] < 0xC0) && IsScalarValue(x) then Some(x as char) else None
  }

  function Cons(c: char, rest: Option<string>): Option<string> {
    if rest.Some? then Some([c] + rest.value) else None
  }

  /**
   * Reads an encoded string back: '+' is a space, "%XY" escapes spell the
   * UTF-8 bytes of one character, unreserved characters stand for themselves;
   * anything else is refused.
   */
  function Decode(r: string): (s: Option<string>)
    ensures s.Some? ==> |s.value| <= |r|
    ensures s.Some? ==> forall c :: c in r ==> IsEncodedChar(c)
    decreases |r|
  {
    if r == [] then Some([])
    else if r[0] == '+' || IsUnreserved(r[0]) then
      var rest := Decode(r[1..]);
      assert forall c :: c in r ==> c == r[0] || c in r[1..];
      Cons(if r[0] == '+' then ' ' else r[0], rest)
    else if |r| < 3 || EscapedByte(r[..3]).None? || SequenceLength(EscapedByte(r[..3]).value).None? then None
    else
      var n := SequenceLength(EscapedByte(r[..3]).value).value;
      if |r| < 3 * n then None
      else
        var bytes := EscapedBytes(r, n);
        var c := if bytes.Some? then DecodeSequence(bytes.value) else None;
        if c.None? then None
        else
          var rest := Decode(r[3 * n..]);
          EscapedChars(r, n);
          assert forall ch :: ch in r ==> ch in r[..3 * n] || ch in r[3 * n..] by {
            assert r == r[..3 * n] + r[3 * n..];
          }
          Cons(c.value, rest)
  }

  /** A run of escapes that reads back is made of encoded characters. */
  lemma {:induction false} EscapedChars(r: string, n: nat)
    requires |r| >= 3 * n && EscapedBytes(r, n).Some?
    ensures forall c :: c in r[..3 * n] ==> IsEncodedChar(c)
  {
    if n > 0 {
      EscapedChars(r[3..], n - 1);
      assert r[..3 * n] == r[..3] + r[3..][..3 * (n - 1)];
      var hi := HexValue(r[1]);
      var lo := HexValue(r[2]);
      assert r[..3] == [r[0], r[1], r[2]];
    }
  }

  lemma HexDigitValue(d: nat)
    requires d < 16
    ensures HexValue(HexDigit(d)) == Some(d)
  {
  }

  lemma PercentReadsBack(b: nat)
    requires b < 256
    ensures EscapedByte(Percent(b)) == Some(b)
  {
    HexDigitValue(b / 16);
    HexDigitValue(b % 16);
  }

  lemma {:induction false} PercentAllReadsBack(bytes: seq<nat>, rest: string)
    requires forall i :: 0 <= i < |bytes| ==> bytes[i] < 256
    ensures EscapedBytes(PercentAll(bytes) + rest, |bytes|) == Some(bytes)
  {
    if bytes != [] {
      var tail := PercentAll(bytes[1..]) + rest;
      PercentReadsBack(bytes[0]);
      PercentAllReadsBack(bytes[1..], rest);
      EscapedBytesCons(Percent(bytes[0]), tail, |bytes| - 1);
      assert PercentAll(bytes) + rest == Percent(bytes[0]) + tail;
      assert [bytes[0]] + bytes[1..] == bytes;
    }
  }

  /** One escape in front of a run of escapes. */
  lemma EscapedBytesCons(h: string, tail: string, n: nat)
    requires |h| == 3 && |tail| >= 3 * n
    ensures EscapedBytes(h + tail, n + 1) ==
      if EscapedByte(h).Some? && EscapedBytes(tail, n).Some? then Some([EscapedByte(h).value] + EscapedBytes(tail, n).value) else None
  {
    assert (h + tail)[..3] == h && (h + tail)[3..] == tail;
  }

  lemma Utf8ReadsBack1(c: char)
    requires c as int < 0x80
    ensures SequenceLength(Utf8(c)[0]) == Some(|Utf8(c)|)
    ensures DecodeSequence(Utf8(c)) == Some(c)
  {
  }

  lemma Utf8ReadsBack2(c: char)
    requires 0x80 <= c as int < 0x800
    ensures SequenceLength(Utf8(c)[0]) == Some(|Utf8(c)|)
    ensures DecodeSequence(Utf8(c)) == Some(c)
  {
    var n := c as int;
    assert (n / 64) * 64 + n % 64 == n;
  }

  lemma Utf8ReadsBack3(c: char)
    requires 0x800 <= c as int < 0x10000
    ensures SequenceLength(Utf8(c)[0]) == Some(|Utf8(c)|)
    ensures DecodeSequence(Utf8(c)) == Some(c)
  {
    var n := c as int;
    var q := n / 64;
    assert n == q * 64 + n % 64;
    assert n / 4096 == q / 64 && q == (q / 64) * 64 + q % 64;
  }

  lemma Utf8ReadsBack4(c: char)
    requires 0x10000 <= c as int
    ensures SequenceLength(Utf8(c)[0]) == Some(|Utf8(c)|)
    ensures DecodeSequence(Utf8(c)) == Some(c)
  {
    var n := c as int;
    var q := n / 64;
    var q2 := q / 64;
    assert n == q * 64 + n % 64;
    assert n / 4096 == q2 && q == q2 * 64 + q % 64;
    assert n / 262144 == q2 / 64 && q2 == (q2 / 64) * 64 + q2 % 64;
  }

  /** The lead byte announces the length of the sequence, and the sequence spells the character back. */
  lemma Utf8ReadsBack(c: char)
    ensures SequenceLength(Utf8(c)[0]) == Some(|Utf8(c)|)
    ensures DecodeSequence(Utf8(c)) == Some(c)
  {
    if c as int < 0x80 {
      Utf8ReadsBack1(c);
    } else if c as int < 0x800 {
      Utf8ReadsBack2(c);
    } else if c as int < 0x10000 {
      Utf8ReadsBack3(c);
    } else {
      Utf8ReadsBack4(c);
    }
  }

  lemma {:induction false} DecodePercentHead(c: char, rest: string)
    requires !IsUnreserved(c)
    ensures Decode(PercentAll(Utf8(c)) + rest) == Cons(c, Decode(rest))
  {
    var bytes := Utf8(c);
    var n := |bytes|;
    var r := PercentAll(bytes) + rest;
    assert r[..3] == Percent(bytes[0]) by {
      assert PercentAll(bytes) == Percent(bytes[0]) + PercentAll(bytes[1..]);
    }
    PercentReadsBack(bytes[0]);
    Utf8ReadsBack(c);
    PercentAllReadsBack(bytes, rest);
    assert r[3 * n..] == rest;
  }

  /** Reading the serialisation of a string back gives the string. */
  lemma {:induction false} DecodeEncode(s: string)
    ensures Decode(Encode(s)) == Some(s)
  {
    if s != [] {
      var c := s[0];
      var rest := Encode(s[1..]);
      DecodeEncode(s[1..]);
      if IsUnreserved(c) || c == ' ' {
        var r := Encode(s);
        assert r == [if c == ' ' then '+' else c] + rest;
        assert r[1..] == rest;
      } else {
        DecodePercentHead(c, rest);
      }
      assert [c] + s[1..] == s;
    }
  }

  /** "name=value" for one pair. */
  function EncodePair(p: Pair): (r: string)
    ensures '&' !in r
  {
    Encode(p.name) + "=" + Encode(p.value)
  }

  function EncodePairs(ps: seq<Pair>): (r: seq<string>)
    ensures |r| == |ps|
    ensures forall i :: 0 <= i < |ps| ==> r[i] == EncodePair(ps[i])
  {
    if ps == [] then [] else [EncodePair(ps[0])] + EncodePairs(ps[1..])
  }

  /** `params.toString()`: the encoded pairs joined by '&'. */
  function Serialize(ps: seq<Pair>): string {
    Join(EncodePairs(ps), "&")
  }

  /** The serialisation of a non-empty list cuts back into one "name=value" piece per pair, in order. */
  lemma SerializedPairsSeparate(ps: seq<Pair>)
    requires ps != []
    ensures Split(Serialize(ps), '&') == EncodePairs(ps)
  {
    var pieces := EncodePairs(ps);
    forall p | p in pieces ensures '&' !in p {
      var i :| 0 <= i < |pieces| && pieces[i] == p;
    }
    SplitJoin(pieces, '&');
  }
}
