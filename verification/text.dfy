/** Option, Result and the Python exceptions that the modelled code raises. */
module Outcomes {

  datatype Option<T> = None | Some(value: T)

  /** The exception classes the pipeline raises, with the part of their message that matters. */
  datatype Error =
    | ValueError(message: string)
    | KeyError(key: string)
    | IndexError
    | TypeError
    | AttributeError(name: string)
    | NotImplementedError
    | OSError

  /** A value, or the exception that was raised instead. */
  datatype Result<T> = Ok(value: T) | Err(error: Error)
}

/**
 * The Python string operations the pipeline relies on, over `seq<char>`:
 * `str.join`, `str.strip`, `str.isspace`, `str.lower` (ASCII only), `in`,
 * `str.find`/`str.rfind`, slicing with negative indices, `str(int)`,
 * `str.split(c)[-1]`, `str.replace` and `sorted` on strings.
 */
module Text {

  /** Python's `str.isspace` for one character (the Unicode whitespace set). */
  predicate IsSpace(c: char)
  {
    c == ' ' || c == '\t' || c == '\n' || c == '\r' || c == '\U{0B}' || c == '\U{0C}'
    || c == '\U{1C}' || c == '\U{1D}' || c == '\U{1E}' || c == '\U{1F}'
    || c == '\U{85}' || c == '\U{A0}' || c == '\U{1680}'
    || ('\U{2000}' <= c <= '\U{200A}')
    || c == '\U{2028}' || c == '\U{2029}' || c == '\U{202F}' || c == '\U{205F}' || c == '\U{3000}'
  }

  // ---------------------------------------------------------------- join

  /** `sep.join(parts)`. */
  function Join(sep: string, parts: seq<string>): string
  {
    if |parts| == 0 then ""
    else if |parts| == 1 then parts[0]
    else parts[0] + sep + Join(sep, parts[1..])
  }

  /** `"\n".join(parts)`. */
  function JoinLines(parts: seq<string>): string
  {
    Join("\n", parts)
  }

  /** Appending one more part to a join adds the separator and that part at the end. */
  lemma {:induction false} JoinSnoc(sep: string, parts: seq<string>, p: string)
    ensures Join(sep, parts + [p]) == if |parts| == 0 then p else Join(sep, parts) + sep + p
  {
    if |parts| >= 2 {
      assert (parts + [p])[1..] == parts[1..] + [p];
      JoinSnoc(sep, parts[1..], p);
    } else if |parts| == 1 {
      assert (parts + [p])[1..] == [p];
    }
  }

  /** Appending in two steps is appending the two parts together. */
  lemma AppendAssoc(a: string, b: string, c: string)
    ensures a + (b + c) == a + b + c
  {
  }

  lemma AppendAssoc4(a: string, b: string, c: string, d: string)
    ensures a + (b + c + d) == a + b + c + d
  {
  }

  /** Joining two clauses by a newline puts one newline between them. */
  lemma JoinLines2(a: string, b: string)
    ensures JoinLines([a, b]) == a + "\n" + b
  {
    assert [a, b][1..] == [b];
    assert Join("\n", [b]) == b;
  }

  /** Joining three clauses by newlines puts exactly one newline between neighbours. */
  lemma JoinLines3(a: string, b: string, c: string)
    ensures JoinLines([a, b, c]) == a + "\n" + b + "\n" + c
  {
    assert [a, b, c][1..] == [b, c];
    assert [b, c][1..] == [c];
    assert Join("\n", [b, c]) == b + "\n" + c;
  }

  /** Joining four clauses by newlines puts exactly one newline between neighbours. */
  lemma JoinLines4(a: string, b: string, c: string, d: string)
    ensures JoinLines([a, b, c, d]) == a + "\n" + b + "\n" + c + "\n" + d
  {
    assert [a, b, c, d][1..] == [b, c, d];
    assert [b, c, d][1..] == [c, d];
    assert [c, d][1..] == [d];
    assert Join("\n", [c, d]) == c + "\n" + d;
    assert Join("\n", [b, c, d]) == b + "\n" + c + "\n" + d;
  }

  /** Joining five clauses by newlines puts exactly one newline between neighbours. */
  lemma JoinLines5(a: string, b: string, c: string, d: string, e: string)
    ensures JoinLines([a, b, c, d, e]) == a + "\n" + b + "\n" + c + "\n" + d + "\n" + e
  {
    assert [a, b, c, d, e][1..] == [b, c, d, e];
    JoinLines4(b, c, d, e);
  }

  // --------------------------------------------------------------- strip

  /** The length of the whitespace run that starts `s`. */
  function LeadingSpace(s: string): (n: nat)
    ensures n <= |s|
    ensures forall i :: 0 <= i < n ==> IsSpace(s[i])
    ensures n < |s| ==> !IsSpace(s[n])
  {
    if |s| > 0 && IsSpace(s[0]) then 1 + LeadingSpace(s[1..]) else 0
  }

  /** The length of the whitespace run that ends `s`. */
  function TrailingSpace(s: string): (n: nat)
    ensures n <= |s|
    ensures forall i :: |s| - n <= i < |s| ==> IsSpace(s[i])
    ensures n < |s| ==> !IsSpace(s[|s| - n - 1])
  {
    if |s| > 0 && IsSpace(s[|s| - 1]) then 1 + TrailingSpace(s[..|s| - 1]) else 0
  }

  /** The whitespace run is the only prefix of spaces followed by a non-space or the end. */
  lemma {:induction false} LeadingSpaceUnique(s: string, n: int)
    requires 0 <= n <= |s|
    requires forall i :: 0 <= i < n ==> IsSpace(s[i])
    requires n < |s| ==> !IsSpace(s[n])
    ensures LeadingSpace(s) == n
  {
    if n > 0 {
      assert IsSpace(s[0]);
      LeadingSpaceUnique(s[1..], n - 1);
    }
  }

  /** `s.lstrip()`: drops the leading whitespace run, so what is left does not start with whitespace. */
  function LStrip(s: string): (r: string)
    ensures r == [] || !IsSpace(r[0])
  {
    s[LeadingSpace(s)..]
  }

  /** `s.rstrip()`: drops the trailing whitespace run, so what is left does not end with whitespace. */
  function RStrip(s: string): (r: string)
    ensures r == [] || !IsSpace(r[|r| - 1])
  {
    s[..|s| - TrailingSpace(s)]
  }

  /** `s.strip()`. */
  function Strip(s: string): string
  {
    RStrip(LStrip(s))
  }

  /** A stripped string neither starts nor ends with whitespace. */
  lemma StripShape(s: string)
    ensures var r := Strip(s);
      r == [] || (!IsSpace(r[0]) && !IsSpace(r[|r| - 1]))
  {
    var l := LStrip(s);
    var r := RStrip(l);
    if r != [] {
      assert r[0] == l[0];
    }
  }

  /** A stripped string is the factor of the input that starts after its leading whitespace. */
  lemma StripFactor(s: string)
    ensures var r := Strip(s);
      var a := LeadingSpace(s);
      a + |r| <= |s| && r == s[a..a + |r|]
  {
    var a := LeadingSpace(s);
    var l := s[a..];
    var r := l[..|l| - TrailingSpace(l)];
    PrefixOfSuffix(s, a, |r|);
  }

  /** A prefix of a suffix is a factor. */
  lemma PrefixOfSuffix(s: string, a: int, b: int)
    requires 0 <= a && 0 <= b && a + b <= |s|
    ensures s[a..][..b] == s[a..a + b]
  {
    assert forall i :: 0 <= i < b ==> s[a..][..b][i] == s[a..a + b][i];
  }

  /** Stripping is idempotent. */
  lemma StripIdempotent(s: string)
    ensures Strip(Strip(s)) == Strip(s)
  {
    var r := Strip(s);
    StripShape(s);
    assert LStrip(r) == r;
    assert RStrip(r) == r;
  }

  /** Leading whitespace does not survive `lstrip`. */
  lemma LStripSpaces(ws: string, x: string)
    requires forall i :: 0 <= i < |ws| ==> IsSpace(ws[i])
    ensures LStrip(ws + x) == LStrip(x)
  {
    var n := LeadingSpace(x);
    var s := ws + x;
    forall i | 0 <= i < |ws| + n ensures IsSpace(s[i]) {
      if i >= |ws| {
        assert s[i] == x[i - |ws|];
      }
    }
    if |ws| + n < |s| {
      assert s[|ws| + n] == x[n];
    }
    LeadingSpaceUnique(s, |ws| + n);
    assert s[|ws| + n..] == x[n..];
  }

  /** Leading whitespace does not survive `strip`. */
  lemma StripSpaces(ws: string, x: string)
    requires forall i :: 0 <= i < |ws| ==> IsSpace(ws[i])
    ensures Strip(ws + x) == Strip(x)
  {
    LStripSpaces(ws, x);
  }

  // ------------------------------------------------------------ lower

  /** `c.lower()` for ASCII; every other character is left alone. */
  function LowerChar(c: char): char
  {
    if 'A' <= c <= 'Z' then (c as int + 32) as char else c
  }

  /** `s.lower()` restricted to ASCII case mapping: it keeps the length. */
  function Lower(s: string): (r: string)
    ensures |r| == |s|
    ensures forall i :: 0 <= i < |s| ==> r[i] == LowerChar(s[i])
  {
    seq(|s|, i requires 0 <= i < |s| => LowerChar(s[i]))
  }

  // ------------------------------------------------------- occurrences

  /** `p` occurs in `s` starting at index `k`. */
  predicate OccursAt(s: string, p: string, k: int)
  {
    0 <= k && k + |p| <= |s| && s[k..k + |p|] == p
  }

  /** Python's `p in s` for strings. */
  predicate Contains(s: string, p: string)
  {
    exists k | 0 <= k <= |s| :: OccursAt(s, p, k)
  }

  /** The largest start index of `p` in `s` that is at most `hi`, or -1. */
  function LastOccurrence(s: string, p: string, hi: int): (k: int)
    ensures k == -1 || (0 <= k <= hi && OccursAt(s, p, k))
    ensures forall j :: k < j <= hi ==> !OccursAt(s, p, j)
    decreases hi + 1
  {
    if hi < 0 then -1
    else if OccursAt(s, p, hi) then hi
    else LastOccurrence(s, p, hi - 1)
  }

  /** Python's `s.rfind(p)`: the last start index of `p` in `s`, or -1 when there is none. */
  function RFind(s: string, p: string): (k: int)
    ensures -1 <= k <= |s|
    ensures k >= 0 ==> k + |p| <= |s|
    ensures forall j :: k < j ==> !OccursAt(s, p, j)
  {
    LastOccurrence(s, p, |s|)
  }

  /** `rfind` finds something exactly when `p in s`, and what it finds is an occurrence. */
  lemma RFindFound(s: string, p: string)
    ensures RFind(s, p) >= 0 <==> Contains(s, p)
    ensures RFind(s, p) >= 0 ==> OccursAt(s, p, RFind(s, p))
  {
    var k := RFind(s, p);
    if k < 0 {
      forall j | 0 <= j <= |s| ensures !OccursAt(s, p, j) {
        assert k < j;
      }
    }
  }

  /** Python's `s.find(c)` for one character: the first index of `c`, or -1. */
  function FindChar(s: string, c: char): (k: int)
    ensures -1 <= k < |s|
    ensures k == -1 <==> c !in s
    ensures k >= 0 ==> s[k] == c && c !in s[..k]
  {
    if |s| == 0 then -1
    else if s[0] == c then 0
    else
      var k := FindChar(s[1..], c);
      if k == -1 then -1
      else
        assert s[..k + 1] == [s[0]] + s[1..][..k];
        k + 1
  }

  /** Python's `s.rfind(c)` for one character: the last index of `c`, or -1. */
  function RFindChar(s: string, c: char): (k: int)
    ensures -1 <= k < |s|
    ensures k == -1 <==> c !in s
    ensures k >= 0 ==> s[k] == c && c !in s[k + 1..]
  {
    if |s| == 0 then -1
    else if s[|s| - 1] == c then |s| - 1
    else RFindChar(s[..|s| - 1], c)
  }

  /** A character missing from `a` is missing from the first |a| positions of `a + b`. */
  lemma NotInPrefix(a: string, b: string, c: char)
    requires c !in a
    ensures forall j :: 0 <= j < |a| ==> (a + b)[j] != c
  {
    forall j | 0 <= j < |a| ensures (a + b)[j] != c {
      assert (a + b)[j] == a[j];
      assert a[j] in a;
    }
  }

  /** A character missing from `b` is missing from the positions of `a + b` past `a`. */
  lemma NotInSuffix(a: string, b: string, c: char)
    requires c !in b
    ensures forall j :: |a| <= j < |a + b| ==> (a + b)[j] != c
  {
    forall j | |a| <= j < |a + b| ensures (a + b)[j] != c {
      assert (a + b)[j] == b[j - |a|];
      assert b[j - |a|] in b;
    }
  }

  /** The first occurrence of `c` is at `k` when `s[k]` is `c` and nothing before it is. */
  lemma FindCharAt(s: string, c: char, k: int)
    requires 0 <= k < |s| && s[k] == c
    requires forall j :: 0 <= j < k ==> s[j] != c
    ensures FindChar(s, c) == k
  {
    var f := FindChar(s, c);
    assert f != -1 by {
      assert s[k] in s;
    }
    forall j | 0 <= j < f ensures s[j] != c {
      assert s[..f][j] == s[j];
    }
  }

  /** The last occurrence of `c` is at `k` when `s[k]` is `c` and nothing after it is. */
  lemma RFindCharAt(s: string, c: char, k: int)
    requires 0 <= k < |s| && s[k] == c
    requires forall j :: k < j < |s| ==> s[j] != c
    ensures RFindChar(s, c) == k
  {
    var f := RFindChar(s, c);
    assert f != -1 by {
      assert s[k] in s;
    }
    forall j | f < j < |s| ensures s[j] != c {
      assert s[f + 1..][j - f - 1] == s[j];
    }
  }

  /**
   * If the first character of `p` does not occur in `a` and `p` does not occur in `b`,
   * then `p` does not occur in `a + b`.
   */
  lemma NoOccurrenceAfterForeignPrefix(a: string, b: string, p: string)
    requires |p| > 0 && p[0] !in a
    requires !Contains(b, p)
    ensures !Contains(a + b, p)
  {
    forall k | 0 <= k <= |a + b| && k + |p| <= |a + b|
      ensures !OccursAt(a + b, p, k)
    {
      if k < |a| {
        assert (a + b)[k..k + |p|][0] == a[k];
      } else {
        assert (a + b)[k..k + |p|] == b[k - |a|..k - |a| + |p|];
        assert !OccursAt(b, p, k - |a|);
      }
    }
  }

  /** A string lacking the first character of a non-empty pattern does not contain it. */
  lemma AbsentFirstChar(s: string, p: string)
    requires |p| > 0 && p[0] !in s
    ensures !Contains(s, p)
  {
    assert !Contains("", p);
    NoOccurrenceAfterForeignPrefix(s, "", p);
    assert s + "" == s;
  }

  /**
   * A pattern without a newline cannot straddle a newline: if it occurs in neither
   * `a` nor `b`, it does not occur in `a + "\n" + b`.
   */
  lemma NoOccurrenceAcrossNewline(a: string, b: string, p: string)
    requires '\n' !in p
    requires !Contains(a, p) && !Contains(b, p)
    ensures !Contains(a + "\n" + b, p)
  {
    var s := a + "\n" + b;
    forall k | 0 <= k <= |s| && k + |p| <= |s|
      ensures !OccursAt(s, p, k)
    {
      if k + |p| <= |a| {
        assert s[k..k + |p|] == a[k..k + |p|];
        assert !OccursAt(a, p, k);
      } else if k > |a| {
        assert s[k..k + |p|] == b[k - |a| - 1..k - |a| - 1 + |p|];
        assert !OccursAt(b, p, k - |a| - 1);
      } else {
        assert s[k..k + |p|][|a| - k] == '\n';
      }
    }
  }

  // ------------------------------------------------------------ replace

  /** Python's `s.replace(p, r)` for a non-empty `p`: left-to-right, non-overlapping, inserted text is not rescanned. */
  function ReplaceAll(s: string, p: string, r: string): string
    requires |p| > 0
    decreases |s|
  {
    if |s| < |p| then s
    else if s[..|p|] == p then r + ReplaceAll(s[|p|..], p, r)
    else [s[0]] + ReplaceAll(s[1..], p, r)
  }

  /** Removing a pattern (`s.replace(p, "")`) never lengthens a string, and it changes it exactly when the pattern occurs. */
  lemma {:induction false} RemoveAllChanges(s: string, p: string)
    requires |p| > 0
    ensures |ReplaceAll(s, p, "")| <= |s|
    ensures ReplaceAll(s, p, "") == s <==> !Contains(s, p)
    decreases |s|
  {
    if |s| < |p| {
      assert !Contains(s, p);
    } else if s[..|p|] == p {
      RemoveAllChanges(s[|p|..], p);
      assert OccursAt(s, p, 0);
    } else {
      RemoveAllChanges(s[1..], p);
      assert !OccursAt(s, p, 0);
      ContainsTail(s, p);
    }
  }

  /** Replacement passes over a prefix that lacks the pattern's first character. */
  lemma {:induction false} ReplaceAllForeignPrefix(a: string, b: string, p: string, r: string)
    requires |p| > 0 && p[0] !in a
    ensures ReplaceAll(a + b, p, r) == a + ReplaceAll(b, p, r)
    decreases |a|
  {
    if |a| > 0 {
      var s := a + b;
      assert s[0] == a[0];
      if |s| >= |p| {
        assert s[..|p|][0] == a[0];
      }
      assert s[1..] == a[1..] + b;
      ReplaceAllForeignPrefix(a[1..], b, p, r);
    } else {
      assert a + b == b;
    }
  }

  /** Replacing a pattern within exactly that pattern yields the replacement. */
  lemma ReplaceAllWhole(p: string, r: string)
    requires |p| > 0
    ensures ReplaceAll(p, p, r) == r
  {
    assert p[..|p|] == p;
    assert p[|p|..] == "";
  }

  /** When `p` does not start `s`, it occurs in `s` exactly when it occurs in `s[1..]`. */
  lemma ContainsTail(s: string, p: string)
    requires |s| > 0 && !OccursAt(s, p, 0)
    ensures Contains(s, p) <==> Contains(s[1..], p)
  {
    if Contains(s, p) {
      var k :| 0 <= k <= |s| && OccursAt(s, p, k);
      assert k > 0;
      assert s[1..][k - 1..k - 1 + |p|] == s[k..k + |p|];
      assert OccursAt(s[1..], p, k - 1);
    }
    if Contains(s[1..], p) {
      var k :| 0 <= k <= |s[1..]| && OccursAt(s[1..], p, k);
      assert s[k + 1..k + 1 + |p|] == s[1..][k..k + |p|];
      assert OccursAt(s, p, k + 1);
    }
  }

  // ------------------------------------------------------------ slicing

  /** How Python normalises a slice bound against a length `n`. */
  function SliceBound(i: int, n: nat): (b: nat)
    ensures b <= n
  {
    if i < 0 then (if i + n < 0 then 0 else i + n)
    else if i > n then n
    else i
  }

  /** Python's `s[start:end]`: negative bounds count from the end, bounds are clamped, never raises. */
  function PySlice(s: string, start: int, end: int): (r: string)
    ensures |r| <= |s|
    ensures 0 <= start <= end <= |s| ==> r == s[start..end]
    ensures 0 <= start && -|s| <= end < 0 && start <= |s| + end ==> r == s[start..|s| + end]
    ensures 0 <= end <= start ==> r == ""
  {
    var a := SliceBound(start, |s|);
    var b := SliceBound(end, |s|);
    if a < b then s[a..b] else ""
  }

  /** Python's `s[:n]` for `n >= 0`. */
  function Prefix(s: string, n: nat): (r: string)
    ensures |r| == if |s| < n then |s| else n
    ensures r == s[..|r|]
  {
    if |s| <= n then s else s[..n]
  }

  /** Python's `s[n:]` for `n >= 0`: empty when `n` is past the end. */
  function DropPrefix(s: string, n: nat): (r: string)
    ensures |r| == if |s| < n then 0 else |s| - n
    ensures r == s[|s| - |r|..]
  {
    if |s| <= n then "" else s[n..]
  }

  // ------------------------------------------------------------ str(int)

  function Digit(d: nat): (c: char)
    requires d < 10
    ensures '0' <= c <= '9' && c as int - '0' as int == d
  {
    ('0' as int + d) as char
  }

  /** The number a string of decimal digits denotes (`int(s)` on digit strings). */
  function DecimalValue(s: string): nat
  {
    if |s| == 0 then 0
    else
      var c := s[|s| - 1];
      DecimalValue(s[..|s| - 1]) * 10 + (if '0' <= c <= '9' then c as int - '0' as int else 0)
  }

  /** Python's `str(n)` for a natural number. */
  function NatToString(n: nat): (r: string)
    ensures |r| > 0
    ensures forall i :: 0 <= i < |r| ==> '0' <= r[i] <= '9'
  {
    if n < 10 then [Digit(n)] else NatToString(n / 10) + [Digit(n % 10)]
  }

  /** Python's `str(i)` for an integer: a minus sign for negatives, then the decimal digits. */
  function IntToString(i: int): (r: string)
    ensures |r| > 0
    ensures forall k :: 0 <= k < |r| ==> r[k] == '-' || '0' <= r[k] <= '9'
    ensures i >= 0 <==> '-' !in r
    ensures i < 0 ==> r[0] == '-' && '-' !in r[1..]
  {
    if i < 0 then "-" + NatToString(-i) else NatToString(i)
  }

  /** Reading the digits of `str(n)` back gives `n`. */
  lemma {:induction false} NatToStringValue(n: nat)
    ensures DecimalValue(NatToString(n)) == n
  {
    var r := NatToString(n);
    if n >= 10 {
      NatToStringValue(n / 10);
      assert r[..|r| - 1] == NatToString(n / 10);
      assert r[|r| - 1] == Digit(n % 10);
    } else {
      assert r[..0] == [];
    }
  }

  /** `str(i)` tells integers apart: its digits read back to `|i|` and its sign is the leading minus. */
  lemma {:induction false} IntToStringInjective(i: int, j: int)
    ensures IntToString(i) == IntToString(j) ==> i == j
  {
    if IntToString(i) == IntToString(j) {
      var r := IntToString(i);
      assert (i >= 0) == (j >= 0);
      if i >= 0 {
        assert r == NatToString(i) && r == NatToString(j);
        NatToStringValue(i);
        NatToStringValue(j);
      } else {
        assert r == "-" + NatToString(-i) && r == "-" + NatToString(-j);
        assert r[1..] == NatToString(-i) && r[1..] == NatToString(-j);
        NatToStringValue(-i);
        NatToStringValue(-j);
      }
    }
  }

  // ----------------------------------------------------- split(c)[-1]

  /** Python's `s.split(c)[-1]`: the text after the last `c`, or all of `s` when there is none. */
  function LastSegment(s: string, c: char): (r: string)
    ensures c !in r
    ensures |r| <= |s| && r == s[|s| - |r|..]
    ensures |r| < |s| ==> s[|s| - |r| - 1] == c
  {
    if |s| == 0 then ""
    else if s[|s| - 1] == c then ""
    else LastSegment(s[..|s| - 1], c) + [s[|s| - 1]]
  }

  /** The segment after the last `c` of `prefix + [c] + u` is `u`, whatever `prefix` holds, when `u` has no `c`. */
  lemma {:induction false} LastSegmentOfJoined(prefix: string, c: char, u: string)
    requires c !in u
    ensures LastSegment(prefix + [c] + u, c) == u
  {
    var s := prefix + [c] + u;
    if |u| > 0 {
      var init, last := u[..|u| - 1], u[|u| - 1];
      assert last in u;
      assert s[|s| - 1] == last;
      assert s[..|s| - 1] == prefix + [c] + init;
      assert LastSegment(s, c) == LastSegment(prefix + [c] + init, c) + [last];
      LastSegmentOfJoined(prefix, c, init);
      assert u == init + [last];
    } else {
      assert s[|s| - 1] == c;
    }
  }

  // ------------------------------------------------------------ sorted

  /** Python's `<` on strings: lexicographic by code point, a proper prefix comes first. */
  predicate StrLess(a: string, b: string)
  {
    if |a| == 0 then |b| > 0
    else if |b| == 0 then false
    else if a[0] != b[0] then a[0] < b[0]
    else StrLess(a[1..], b[1..])
  }

  lemma {:induction false} StrLessIrreflexive(a: string)
    ensures !StrLess(a, a)
  {
    if |a| > 0 {
      StrLessIrreflexive(a[1..]);
    }
  }

  lemma {:induction false} StrLessTransitive(a: string, b: string, c: string)
    requires StrLess(a, b) && StrLess(b, c)
    ensures StrLess(a, c)
  {
    if |a| > 0 && |b| > 0 && |c| > 0 && a[0] == b[0] == c[0] {
      StrLessTransitive(a[1..], b[1..], c[1..]);
    }
  }

  lemma {:induction false} StrLessTotal(a: string, b: string)
    requires a != b
    ensures StrLess(a, b) || StrLess(b, a)
  {
    if |a| > 0 && |b| > 0 && a[0] == b[0] {
      assert a == [a[0]] + a[1..] && b == [b[0]] + b[1..];
      StrLessTotal(a[1..], b[1..]);
    }
  }

  lemma StrLessAsymmetric(a: string, b: string)
    requires StrLess(a, b)
    ensures !StrLess(b, a)
  {
    if StrLess(b, a) {
      StrLessTransitive(a, b, a);
      StrLessIrreflexive(a);
    }
  }

  /** Every element precedes every later one under `<`: sorted and free of duplicates. */
  predicate StrictlySorted(xs: seq<string>)
  {
    forall i, j :: 0 <= i < j < |xs| ==> StrLess(xs[i], xs[j])
  }

  function Elements(xs: seq<string>): set<string>
  {
    set x | x in xs
  }

  lemma ElementsCons(a: string, xs: seq<string>)
    ensures Elements([a] + xs) == {a} + Elements(xs)
  {
    assert forall y :: y in [a] + xs <==> y == a || y in xs;
  }

  /** Inserts `x` into a strictly sorted sequence, leaving it alone when `x` is already there. */
  function InsertSorted(xs: seq<string>, x: string): (r: seq<string>)
    requires StrictlySorted(xs)
    ensures StrictlySorted(r)
    ensures Elements(r) == Elements(xs) + {x}
  {
    if |xs| == 0 then [x]
    else if x == xs[0] then xs
    else if StrLess(x, xs[0]) then
      assert forall j :: 0 < j < |xs| ==> StrLess(x, xs[j]) by {
        forall j | 0 < j < |xs| ensures StrLess(x, xs[j]) {
          StrLessTransitive(x, xs[0], xs[j]);
        }
      }
      [x] + xs
    else
      var rest := InsertSorted(xs[1..], x);
      assert StrLess(xs[0], x) by { StrLessTotal(x, xs[0]); }
      assert forall y :: y in rest ==> StrLess(xs[0], y) by {
        forall y | y in rest ensures StrLess(xs[0], y) {
          assert y in Elements(rest);
        }
      }
      ElementsCons(xs[0], rest);
      ElementsCons(xs[0], xs[1..]);
      assert xs == [xs[0]] + xs[1..];
      [xs[0]] + rest
  }

  /** Python's `sorted(s)` for a set of strings: its elements in increasing order. */
  method Sorted(s: set<string>) returns (r: seq<string>)
    ensures StrictlySorted(r)
    ensures Elements(r) == s
  {
    r := [];
    var rest := s;
    while rest != {}
      invariant StrictlySorted(r)
      invariant Elements(r) + rest == s
      decreases rest
    {
      var x :| x in rest;
      r := InsertSorted(r, x);
      rest := rest - {x};
    }
  }

  /** `sorted(set(xs))`: the distinct elements of `xs` in increasing order. */
  function SortedUnique(xs: seq<string>): (r: seq<string>)
    ensures StrictlySorted(r)
    ensures Elements(r) == Elements(xs)
  {
    if |xs| == 0 then []
    else
      var init := xs[..|xs| - 1];
      assert Elements(xs) == Elements(init) + {xs[|xs| - 1]} by {
        assert xs == init + [xs[|xs| - 1]];
      }
      InsertSorted(SortedUnique(init), xs[|xs| - 1])
  }

  /** A strictly sorted sequence is determined by its elements. */
  lemma {:induction false} SortedDetermined(a: seq<string>, b: seq<string>)
    requires StrictlySorted(a) && StrictlySorted(b)
    requires Elements(a) == Elements(b)
    ensures a == b
    decreases |a|
  {
    assert |a| > 0 ==> a[0] in Elements(b);
    assert |b| > 0 ==> b[0] in Elements(a);
    if |a| > 0 && |b| > 0 {
      // Both heads are the least element of the common set.
      assert a[0] == b[0] by {
        if a[0] != b[0] {
          assert b[0] in Elements(a);
          assert a[0] in Elements(b);
          var i :| 0 <= i < |a| && a[i] == b[0];
          var j :| 0 <= j < |b| && b[j] == a[0];
          assert i > 0 && j > 0;
          StrLessAsymmetric(a[0], b[0]);
        }
      }
      assert Elements(a[1..]) == Elements(b[1..]) by {
        forall x ensures x in Elements(a[1..]) <==> x in Elements(b[1..]) {
          if x in Elements(a[1..]) {
            var i :| 1 <= i < |a| && a[i] == x;
            assert x != a[0] by { assert StrLess(a[0], a[i]); StrLessIrreflexive(a[0]); }
            assert x in Elements(b);
          }
          if x in Elements(b[1..]) {
            var i :| 1 <= i < |b| && b[i] == x;
            assert x != b[0] by { assert StrLess(b[0], b[i]); StrLessIrreflexive(b[0]); }
            assert x in Elements(a);
          }
        }
      }
      SortedDetermined(a[1..], b[1..]);
      assert a == [a[0]] + a[1..];
      assert b == [b[0]] + b[1..];
    }
  }
}
