/**
 * The few Python string operations the chat service relies on: `lower()`,
 * `strip()` with and without an argument, `split()` with no argument,
 * `" ".join(...)`, slicing `s[:n]` and the substring test `p in s`.
 * Strings are sequences of Unicode scalar values, as `len` and slicing
 * count them in Python.
 */
module Text {

  import opened Wrappers

  /** The characters for which Python's `str.isspace()` holds; `strip()` and
      `split()` without arguments remove exactly these. */
  const Whitespace: set<char> := {
    ' ', '\t', '\n', '\r', '\U{0B}', '\U{0C}',
    '\U{1C}', '\U{1D}', '\U{1E}', '\U{1F}', '\U{85}', '\U{A0}', '\U{1680}',
    '\U{2000}', '\U{2001}', '\U{2002}', '\U{2003}', '\U{2004}', '\U{2005}',
    '\U{2006}', '\U{2007}', '\U{2008}', '\U{2009}', '\U{200A}',
    '\U{2028}', '\U{2029}', '\U{202F}', '\U{205F}', '\U{3000}'
  }

  predicate IsUpperAscii(c: char) { 'A' <= c <= 'Z' }

  /** Case mapping of one character: ASCII capitals map to small letters,
      everything else is left as it is. */
  function LowerChar(c: char): char
  {
    if IsUpperAscii(c) then (c as int + 32) as char else c
  }

  /** Python's `s.lower()`, restricted to the ASCII letters. */
  function Lower(s: string): string
  {
    seq(|s|, i requires 0 <= i < |s| => LowerChar(s[i]))
  }

  lemma LowerIsLowerCase(s: string)
    ensures |Lower(s)| == |s|
    ensures forall i :: 0 <= i < |s| ==> !IsUpperAscii(Lower(s)[i])
  {
  }

  lemma LowerIdempotent(s: string)
    ensures Lower(Lower(s)) == Lower(s)
  {
  }

  lemma LowerConcat(a: string, b: string)
    ensures Lower(a + b) == Lower(a) + Lower(b)
  {
  }

  /** Python's substring test `p in s`. */
  predicate Contains(s: string, p: string)
  {
    p <= s || (s != [] && Contains(s[1..], p))
  }

  /** `p` occurs in `s` at position `k`. */
  predicate OccursAt(s: string, p: string, k: nat)
  {
    k + |p| <= |s| && s[k..k + |p|] == p
  }

  /** No character of `s` is in `cs`. */
  predicate Lacks(s: string, cs: set<char>)
  {
    forall i :: 0 <= i < |s| ==> s[i] !in cs
  }

  /** A pattern with a character that `s` lacks does not occur in `s`. */
  lemma LacksLetter(s: string, p: string, j: nat, cs: set<char>)
    requires j < |p| && p[j] in cs && Lacks(s, cs)
    ensures !Contains(s, p)
  {
    ContainsChars(s, p);
  }

  lemma LacksConcat(a: string, b: string, cs: set<char>)
    requires Lacks(a, cs) && Lacks(b, cs)
    ensures Lacks(a + b, cs)
  {
  }

  /** The middle part of a concatenation occurs right after the first part. */
  lemma OccursInMiddle(a: string, b: string, c: string)
    ensures OccursAt(a + b + c, b, |a|)
  {
    assert (a + b + c)[|a|..|a| + |b|] == b;
  }

  lemma {:induction false} ContainsAt(s: string, p: string, k: nat)
    requires OccursAt(s, p, k)
    ensures Contains(s, p)
  {
    if k > 0 {
      assert s[1..][k - 1..k - 1 + |p|] == s[k..k + |p|];
      ContainsAt(s[1..], p, k - 1);
    }
  }

  /** Conversely, `p in s` has a witness position. */
  lemma {:induction false} ContainsWitness(s: string, p: string) returns (k: nat)
    requires Contains(s, p)
    ensures OccursAt(s, p, k)
  {
    if p <= s {
      k := 0;
    } else {
      var j := ContainsWitness(s[1..], p);
      assert s[1..][j..j + |p|] == s[j + 1..j + 1 + |p|];
      k := j + 1;
    }
  }

  /** Without an occurrence at any position, `p in s` is false. */
  lemma {:induction false} Absent(s: string, p: string)
    requires forall k: nat :: !OccursAt(s, p, k)
    ensures !Contains(s, p)
  {
    assert !OccursAt(s, p, 0);
    if s != [] {
      forall k: nat
        ensures !OccursAt(s[1..], p, k)
      {
        assert !OccursAt(s, p, k + 1);
        if k + |p| <= |s[1..]| {
          assert s[1..][k..k + |p|] == s[k + 1..k + 1 + |p|];
        }
      }
      Absent(s[1..], p);
    }
  }

  /** A longer pattern never occurs in a shorter text. */
  lemma ContainsLength(s: string, p: string)
    ensures Contains(s, p) ==> |p| <= |s|
  {
    if Contains(s, p) {
      var k := ContainsWitness(s, p);
    }
  }

  /** Every character of an occurring pattern occurs in the text. */
  lemma ContainsChars(s: string, p: string)
    ensures Contains(s, p) ==> forall j :: 0 <= j < |p| ==> p[j] in s
  {
    if Contains(s, p) {
      var k := ContainsWitness(s, p);
      forall j | 0 <= j < |p|
        ensures p[j] in s
      {
        assert s[k + j] == p[j];
      }
    }
  }

  /** Stripping leaves a string alone that starts and ends outside `cs`. */
  lemma StripUnchanged(s: string, cs: set<char>)
    requires s != [] && s[0] !in cs && s[|s| - 1] !in cs
    ensures Strip(s, cs) == s
  {
    assert Run(s, cs, true) == 0;
    assert TrailingRun(s, cs) == 0;
  }

  /** Python's slice `s[:n]`. */
  function Take<T>(s: seq<T>, n: nat): (r: seq<T>)
    ensures |r| == (if n < |s| then n else |s|)
    ensures r <= s
  {
    if n < |s| then s[..n] else s
  }

  /** The length of the longest prefix of `s` whose characters are all in
      `cs` (when `member`) or all outside `cs` (when not). */
  function Run(s: string, cs: set<char>, member: bool): (n: nat)
    ensures n <= |s|
    ensures forall k :: 0 <= k < n ==> (s[k] in cs) == member
    ensures n < |s| ==> (s[n] in cs) != member
  {
    if s != [] && (s[0] in cs) == member then 1 + Run(s[1..], cs, member) else 0
  }

  /** The length of the longest suffix of `s` whose characters are all in `cs`. */
  function TrailingRun(s: string, cs: set<char>): (n: nat)
    ensures n <= |s|
    ensures forall k :: |s| - n <= k < |s| ==> s[k] in cs
    ensures n < |s| ==> s[|s| - 1 - n] !in cs
  {
    if s != [] && s[|s| - 1] in cs then 1 + TrailingRun(s[..|s| - 1], cs) else 0
  }

  /** Python's `s.strip(chars)`: the longest infix of `s` that neither starts
      nor ends with a character of `cs`; what is cut off on either side
      consists of characters of `cs` only. */
  function Strip(s: string, cs: set<char>): (r: string)
    ensures Run(s, cs, true) + |r| <= |s|
    ensures r == s[Run(s, cs, true)..Run(s, cs, true) + |r|]
    ensures forall k :: Run(s, cs, true) + |r| <= k < |s| ==> s[k] in cs
    ensures r == [] || (r[0] !in cs && r[|r| - 1] !in cs)
  {
    var i := Run(s, cs, true);
    var t := s[i..];
    t[..|t| - TrailingRun(t, cs)]
  }

  /** `s.split()[0] if s.split() else ...`: the first maximal run of
      non-whitespace characters, or None when `s` is all whitespace. */
  function FirstWord(s: string): (w: Option<string>)
    ensures w.None? <==> forall k :: 0 <= k < |s| ==> s[k] in Whitespace
    ensures w.Some? ==>
      var i := Run(s, Whitespace, true);
      w.value != [] && i + |w.value| <= |s| && w.value == s[i..i + |w.value|]
      && (forall k :: 0 <= k < |w.value| ==> w.value[k] !in Whitespace)
      && (i + |w.value| == |s| || s[i + |w.value|] in Whitespace)
  {
    var i := Run(s, Whitespace, true);
    if i == |s| then None
    else
      var t := s[i..];
      Some(t[..Run(t, Whitespace, false)])
  }

  /** The total length of the parts. */
  function PartsLength(parts: seq<string>): nat
  {
    if parts == [] then 0 else |parts[0]| + PartsLength(parts[1..])
  }

  /** Where part `i` starts in `sep.join(parts)`: after each earlier part and
      its separator. */
  function PartOffset(parts: seq<string>, sep: string, i: nat): nat
    requires i <= |parts|
  {
    if i == 0 then 0 else |parts[0]| + |sep| + PartOffset(parts[1..], sep, i - 1)
  }

  /** Python's `sep.join(parts)`. Its length is that of the parts plus one
      separator between neighbours; `JoinLayout` places each piece. */
  function Join(parts: seq<string>, sep: string): (r: string)
    ensures parts == [] ==> r == ""
    ensures parts != [] ==> |r| == PartsLength(parts) + (|parts| - 1) * |sep|
  {
    if parts == [] then ""
    else if |parts| == 1 then parts[0]
    else parts[0] + sep + Join(parts[1..], sep)
  }

  /** `sep.join(parts)` holds part `i` at `PartOffset(parts, sep, i)`, followed
      by a separator unless it is the last part. */
  lemma JoinLayout(parts: seq<string>, sep: string)
    ensures forall i :: 0 <= i < |parts| ==> OccursAt(Join(parts, sep), parts[i], PartOffset(parts, sep, i))
    ensures forall i :: 0 <= i < |parts| - 1 ==>
      OccursAt(Join(parts, sep), sep, PartOffset(parts, sep, i) + |parts[i]|)
  {
    forall i | 0 <= i < |parts|
      ensures OccursAt(Join(parts, sep), parts[i], PartOffset(parts, sep, i))
    {
      JoinPart(parts, sep, i);
    }
    forall i | 0 <= i < |parts| - 1
      ensures OccursAt(Join(parts, sep), sep, PartOffset(parts, sep, i) + |parts[i]|)
    {
      JoinSeparator(parts, sep, i);
    }
  }

  /** Part `i` of a join starts at its offset. */
  lemma {:induction false} JoinPart(parts: seq<string>, sep: string, i: nat)
    requires i < |parts|
    ensures OccursAt(Join(parts, sep), parts[i], PartOffset(parts, sep, i))
    decreases i
  {
    var r := Join(parts, sep);
    if |parts| == 1 {
      assert r[0..|parts[0]|] == parts[0];
    } else {
      var rest := Join(parts[1..], sep);
      assert r == parts[0] + sep + rest;
      if i == 0 {
        assert r[0..|parts[0]|] == parts[0];
      } else {
        JoinPart(parts[1..], sep, i - 1);
        ShiftOccurs(parts[0] + sep, rest, parts[i], PartOffset(parts[1..], sep, i - 1));
      }
    }
  }

  /** A separator follows every part of a join but the last. */
  lemma {:induction false} JoinSeparator(parts: seq<string>, sep: string, i: nat)
    requires i + 1 < |parts|
    ensures OccursAt(Join(parts, sep), sep, PartOffset(parts, sep, i) + |parts[i]|)
    decreases i
  {
    var rest := Join(parts[1..], sep);
    assert Join(parts, sep) == parts[0] + sep + rest;
    if i == 0 {
      OccursInMiddle(parts[0], sep, rest);
    } else {
      JoinSeparator(parts[1..], sep, i - 1);
      ShiftOccurs(parts[0] + sep, rest, sep, PartOffset(parts[1..], sep, i - 1) + |parts[i]|);
    }
  }

  /** An occurrence in `b` is an occurrence in `a + b`, shifted by `|a|`. */
  lemma ShiftOccurs(a: string, b: string, p: string, k: nat)
    requires OccursAt(b, p, k)
    ensures OccursAt(a + b, p, |a| + k)
  {
    assert (a + b)[|a| + k..|a| + k + |p|] == b[k..k + |p|];
  }
}
