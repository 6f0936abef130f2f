/** The Python string operations the layout engine applies to its content:
    `str.strip`, `str.split`, `str.join`, `str.replace(pat, "")` and the
    prefix slice `s[:k]`; `Contains`, an occurrence test, is used only in
    contracts. */
module Text {

  /** Python's `str.isspace` for one character: the Unicode characters of
      bidirectional class WS, B or S, or of category Zs. */
  predicate IsSpace(c: char)
    ensures c as int < 0x80 ==>
      (IsSpace(c) <==> c in [' ', '\t', '\n', '\U{b}', '\U{c}', '\r', '\U{1c}', '\U{1d}', '\U{1e}', '\U{1f}'])
    ensures IsSpace(c) ==> c as int <= 0x3000
  {
    c == ' ' || '\t' <= c <= '\r' || '\U{1c}' <= c <= '\U{1f}' ||
    c == '\U{85}' || c == '\U{a0}' || c == '\U{1680}' ||
    '\U{2000}' <= c <= '\U{200a}' || c == '\U{2028}' || c == '\U{2029}' ||
    c == '\U{202f}' || c == '\U{205f}' || c == '\U{3000}'
  }

  /** The number of whitespace characters `s.lstrip()` removes. */
  function LeadingSpaces(s: string): (n: nat)
    ensures n <= |s|
    ensures forall i :: 0 <= i < n ==> IsSpace(s[i])
    ensures n < |s| ==> !IsSpace(s[n])
  {
    if s != [] && IsSpace(s[0]) then 1 + LeadingSpaces(s[1..]) else 0
  }

  /** The number of whitespace characters `s.rstrip()` removes. */
  function TrailingSpaces(s: string): (n: nat)
    ensures n <= |s|
    ensures forall i :: |s| - n <= i < |s| ==> IsSpace(s[i])
    ensures n < |s| ==> !IsSpace(s[|s| - 1 - n])
  {
    if s != [] && IsSpace(s[|s| - 1]) then 1 + TrailingSpaces(s[..|s| - 1]) else 0
  }

  /** `s.strip()`: the slice of `s` between its leading and its trailing
      whitespace; it neither starts nor ends with whitespace. */
  function Strip(s: string): (r: string)
    ensures r == [] || (!IsSpace(r[0]) && !IsSpace(r[|r| - 1]))
    ensures TrimmedAt(s, r, LeadingSpaces(s))
  {
    var a := LeadingSpaces(s);
    if a == |s| then []
    else
      var b := TrailingSpaces(s);
      assert a <= |s| - 1 - b by {
        assert !IsSpace(s[a]);
      }
      s[a..|s| - b]
  }

  /** `r` is the slice of `s` starting at `i`, with only whitespace around it. */
  predicate TrimmedAt(s: string, r: string, i: int) {
    0 <= i <= |s| - |r| && r == s[i..i + |r|] &&
    (forall k :: 0 <= k < i ==> IsSpace(s[k])) &&
    (forall k :: i + |r| <= k < |s| ==> IsSpace(s[k]))
  }

  /** `s.split(sep)` for a one-character separator. */
  function Split(s: string, sep: char): (parts: seq<string>)
    ensures |parts| >= 1
    ensures forall i :: 0 <= i < |parts| ==> sep !in parts[i]
  {
    if s == [] then [[]]
    else
      var rest := Split(s[1..], sep);
      if s[0] == sep then [[]] + rest
      else [[s[0]] + rest[0]] + rest[1..]
  }

  /** `sep.join(parts)`: every part, with one separator between neighbours. */
  function Join(parts: seq<string>, sep: string): (r: string)
    ensures |parts| > 0 ==> |r| == TotalLength(parts) + (|parts| - 1) * |sep|
    ensures |parts| > 0 ==> parts[0] <= r
    ensures |parts| == 0 ==> r == []
  {
    if |parts| == 0 then []
    else if |parts| == 1 then parts[0]
    else parts[0] + sep + Join(parts[1..], sep)
  }

  /** The summed length of some strings. */
  function TotalLength(parts: seq<string>): nat {
    if parts == [] then 0 else |parts[0]| + TotalLength(parts[1..])
  }

  /** Where part `i` starts in `Join(parts, sep)`: after the parts before
      it and one separator after each of them. */
  function Offset(parts: seq<string>, sep: string, i: nat): nat
    requires i <= |parts|
  {
    if i == 0 then 0 else |parts[0]| + |sep| + Offset(parts[1..], sep, i - 1)
  }

  /** Part `i` sits in `r` at its offset. */
  predicate PartAt(r: string, parts: seq<string>, sep: string, i: nat)
    requires i < |parts|
  {
    var o := Offset(parts, sep, i);
    o + |parts[i]| <= |r| && r[o..o + |parts[i]|] == parts[i]
  }

  /** One separator follows part `i`, and part `i + 1` starts right after it. */
  predicate SepAfter(r: string, parts: seq<string>, sep: string, i: nat)
    requires i + 1 < |parts|
  {
    var o := Offset(parts, sep, i) + |parts[i]|;
    o + |sep| <= |r| && r[o..o + |sep|] == sep && Offset(parts, sep, i + 1) == o + |sep|
  }

  /** `sep.join(parts)` holds every part in order, each at its offset. */
  lemma {:induction false} JoinPartsAt(parts: seq<string>, sep: string)
    ensures forall i: nat :: i < |parts| ==> PartAt(Join(parts, sep), parts, sep, i)
  {
    if |parts| == 1 {
      assert PartAt(Join(parts, sep), parts, sep, 0);
    } else if |parts| >= 2 {
      JoinPartsAt(parts[1..], sep);
      forall i: nat | i < |parts|
        ensures PartAt(Join(parts, sep), parts, sep, i)
      {
        JoinPartAtStep(parts, sep, i);
      }
    }
  }

  /** One step of `JoinPartsAt`: part `i` of a join of two or more parts,
      given the parts of the join of the tail. */
  lemma JoinPartAtStep(parts: seq<string>, sep: string, i: nat)
    requires |parts| >= 2 && i < |parts|
    requires forall j: nat :: j < |parts| - 1 ==> PartAt(Join(parts[1..], sep), parts[1..], sep, j)
    ensures PartAt(Join(parts, sep), parts, sep, i)
  {
    var r := Join(parts, sep);
    var rt := Join(parts[1..], sep);
    var k := |parts[0]| + |sep|;
    assert r == parts[0] + sep + rt;
    if i > 0 {
      assert PartAt(rt, parts[1..], sep, i - 1);
      var o := Offset(parts[1..], sep, i - 1);
      assert r[k + o..k + o + |parts[i]|] == rt[o..o + |parts[i]|];
    }
  }

  /** In `sep.join(parts)` exactly one separator sits between neighbouring
      parts, and the next part starts right after it. */
  lemma {:induction false} JoinSepsAfter(parts: seq<string>, sep: string)
    ensures forall i: nat :: i + 1 < |parts| ==> SepAfter(Join(parts, sep), parts, sep, i)
  {
    if |parts| >= 2 {
      JoinSepsAfter(parts[1..], sep);
      forall i: nat | i + 1 < |parts|
        ensures SepAfter(Join(parts, sep), parts, sep, i)
      {
        JoinSepAfterStep(parts, sep, i);
      }
    }
  }

  /** One step of `JoinSepsAfter`. */
  lemma JoinSepAfterStep(parts: seq<string>, sep: string, i: nat)
    requires |parts| >= 2 && i + 1 < |parts|
    requires forall j: nat :: j + 1 < |parts| - 1 ==> SepAfter(Join(parts[1..], sep), parts[1..], sep, j)
    ensures SepAfter(Join(parts, sep), parts, sep, i)
  {
    var r := Join(parts, sep);
    var rt := Join(parts[1..], sep);
    var k := |parts[0]| + |sep|;
    assert r == parts[0] + sep + rt;
    if i > 0 {
      assert SepAfter(rt, parts[1..], sep, i - 1);
      var o := Offset(parts[1..], sep, i - 1) + |parts[i]|;
      assert r[k + o..k + o + |sep|] == rt[o..o + |sep|];
    } else {
      assert r[|parts[0]|..k] == sep;
    }
  }

  /** Splitting on a character and joining on it again gives back the string. */
  lemma {:induction false} JoinSplit(s: string, sep: char)
    ensures Join(Split(s, sep), [sep]) == s
  {
    if s != [] {
      var rest := Split(s[1..], sep);
      JoinSplit(s[1..], sep);
      if s[0] == sep {
        assert Split(s, sep)[1..] == rest;
      } else if |rest| > 1 {
        var parts := Split(s, sep);
        assert parts[1..] == rest[1..];
        calc {
          Join(parts, [sep]);
          ([s[0]] + rest[0]) + [sep] + Join(rest[1..], [sep]);
          [s[0]] + (rest[0] + [sep] + Join(rest[1..], [sep]));
          [s[0]] + Join(rest, [sep]);
        }
      }
    }
  }

  /** The lines of a text block as the engine splits them: `text.strip().split("\n")`. */
  function Lines(text: string): (lines: seq<string>)
    ensures |lines| >= 1
  {
    Split(Strip(text), '\n')
  }

  /** `pat` occurs somewhere in `s`; used only to state contracts. */
  predicate Contains(s: string, pat: string) {
    exists i | 0 <= i <= |s| :: OccursAt(s, pat, i)
  }

  /** `pat` occurs in `s` starting at index `i`. */
  predicate OccursAt(s: string, pat: string, i: int) {
    0 <= i && i + |pat| <= |s| && s[i..i + |pat|] == pat
  }

  /** `s.replace(pat, "")`: every occurrence of `pat` found in a
      left-to-right scan is removed. */
  function RemoveAll(s: string, pat: string): (r: string)
    requires |pat| > 0
    ensures |r| <= |s|
    decreases |s|
  {
    if |s| < |pat| then s
    else if s[..|pat|] == pat then RemoveAll(s[|pat|..], pat)
    else [s[0]] + RemoveAll(s[1..], pat)
  }

  /** Removing a pattern that does not occur changes nothing. */
  lemma {:induction false} RemoveAbsent(s: string, pat: string)
    requires |pat| > 0 && !Contains(s, pat)
    ensures RemoveAll(s, pat) == s
    decreases |s|
  {
    if |s| >= |pat| {
      assert s[..|pat|] != pat by {
        assert !OccursAt(s, pat, 0);
      }
      ContainsTail(s, pat);
      RemoveAbsent(s[1..], pat);
    }
  }

  /** An occurrence in the tail of a string is an occurrence in the string. */
  lemma ContainsTail(s: string, pat: string)
    requires s != []
    ensures Contains(s[1..], pat) ==> Contains(s, pat)
  {
    if Contains(s[1..], pat) {
      var i :| 0 <= i <= |s| - 1 && OccursAt(s[1..], pat, i);
      assert s[1..][i..i + |pat|] == s[i + 1..i + 1 + |pat|];
      assert OccursAt(s, pat, i + 1);
    }
  }

  /** Python's `s[:k]`: the first `k` characters, the whole string when it
      is shorter, and for a negative `k` all but the last `-k`. */
  function PyPrefix(s: string, k: int): (r: string)
    ensures r <= s
    ensures 0 <= k ==> |r| <= k && (|r| < k ==> r == s)
    ensures k < 0 ==> (if -k <= |s| then |r| == |s| + k else r == [])
  {
    if 0 <= k then (if k < |s| then s[..k] else s)
    else if -k <= |s| then s[..|s| + k] else []
  }
}
