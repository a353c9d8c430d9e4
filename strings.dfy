/**
 * The JavaScript string operations the workflow code relies on, over
 * `seq<char>`. Case mapping and white space are the ASCII ones.
 */
module Strings {
  import opened Wrappers

  predicate StartsWith(s: string, p: string)
  {
    |p| <= |s| && s[..|p|] == p
  }

  predicate EndsWith(s: string, p: string)
  {
    |p| <= |s| && s[|s| - |p|..] == p
  }

  /** `p` occurs in `s` starting at position `i`. */
  predicate OccursAt(s: string, p: string, i: int)
  {
    0 <= i <= |s| - |p| && s[i..i + |p|] == p
  }

  /** `s.includes(p)` */
  predicate Contains(s: string, p: string)
  {
    exists i | 0 <= i <= |s| - |p| :: OccursAt(s, p, i)
  }

  /** A concatenation of three texts starts with the first and ends with the last. */
  lemma Affixes(a: string, b: string, c: string)
    ensures StartsWith(a + b + c, a) && EndsWith(a + b + c, c)
  {
    assert (a + b + c)[..|a|] == a;
    assert (a + b + c)[|a + b + c| - |c|..] == c;
  }

  lemma ContainsItself(s: string)
    ensures Contains(s, s)
  {
    assert OccursAt(s, s, 0);
  }

  /** `s.indexOf(p)`: the first position where `p` occurs, or -1. */
  function IndexOf(s: string, p: string): (r: int)
    ensures r >= -1
    ensures r == -1 <==> !Contains(s, p)
    ensures r >= 0 ==> OccursAt(s, p, r)
    ensures r >= 0 ==> forall i | 0 <= i < r :: !OccursAt(s, p, i)
    decreases |s|
  {
    if |s| < |p| then -1
    else if s[..|p|] == p then assert OccursAt(s, p, 0); 0
    else
      var t := IndexOf(s[1..], p);
      forall i | 1 <= i <= |s| - |p| ensures OccursAt(s, p, i) == OccursAt(s[1..], p, i - 1) {
        OccursAtShift(s, p, i);
      }
      if t == -1 then -1 else assert OccursAt(s, p, t + 1); t + 1
  }

  /** An occurrence past the first character is an occurrence in the rest, one position earlier. */
  lemma OccursAtShift(s: string, p: string, i: int)
    requires 1 <= i <= |s| - |p|
    ensures OccursAt(s, p, i) == OccursAt(s[1..], p, i - 1)
  {
    var a, b := s[i..i + |p|], s[1..][i - 1..i - 1 + |p|];
    assert forall k | 0 <= k < |p| :: a[k] == b[k];
    assert a == b;
  }

  /** A prefix of the suffix from `j` occurs at `j`. */
  lemma PrefixOfSuffixOccurs(s: string, j: int, r: string)
    requires 0 <= j <= |s| && |r| <= |s| - j && r == s[j..][..|r|]
    ensures OccursAt(s, r, j) && Contains(s, r)
  {
    assert s[j..][..|r|] == s[j..j + |r|];
    assert OccursAt(s, r, j);
  }

  function LowerChar(c: char): char
  {
    if 'A' <= c <= 'Z' then (c as int + 32) as char else c
  }

  /** `s.toLowerCase()` (ASCII letters only). */
  function ToLower(s: string): (r: string)
    ensures |r| == |s|
    ensures forall i | 0 <= i < |s| :: r[i] == LowerChar(s[i])
  {
    seq(|s|, i requires 0 <= i < |s| => LowerChar(s[i]))
  }

  predicate IsSpace(c: char)
  {
    c == ' ' || c == '\t' || c == '\n' || c == '\r' || c == '\U{000B}' || c == '\U{000C}'
    || c == '\U{00A0}' || c == '\U{FEFF}'
  }

  function TrimStart(s: string): (r: string)
    ensures |r| <= |s| && r == s[|s| - |r|..]
    ensures r == [] || !IsSpace(r[0])
    ensures forall i | 0 <= i < |s| - |r| :: IsSpace(s[i])
  {
    if s == [] || !IsSpace(s[0]) then s
    else
      var t := TrimStart(s[1..]);
      assert s[1..][|s| - 1 - |t|..] == s[|s| - |t|..];
      t
  }

  function TrimEnd(s: string): (r: string)
    ensures |r| <= |s| && r == s[..|r|]
    ensures r == [] || !IsSpace(r[|r| - 1])
    ensures forall i | |r| <= i < |s| :: IsSpace(s[i])
  {
    if s == [] || !IsSpace(s[|s| - 1]) then s
    else
      var t := TrimEnd(s[..|s| - 1]);
      t
  }

  /** `s.trim()` */
  function Trim(s: string): (r: string)
    ensures r == [] || (!IsSpace(r[0]) && !IsSpace(r[|r| - 1]))
    ensures Contains(s, r)
  {
    var a := TrimStart(s);
    var r := TrimEnd(a);
    TrimmedInside(s, a, r);
    r
  }

  /** A prefix of a suffix of `s` occurs in `s`; both ends of it are the trimmed ends. */
  lemma TrimmedInside(s: string, a: string, r: string)
    requires |a| <= |s| && a == s[|s| - |a|..] && (a == [] || !IsSpace(a[0]))
    requires |r| <= |a| && r == a[..|r|] && (r == [] || !IsSpace(r[|r| - 1]))
    ensures r == [] || (!IsSpace(r[0]) && !IsSpace(r[|r| - 1]))
    ensures Contains(s, r)
  {
    PrefixOfSuffixOccurs(s, |s| - |a|, r);
    if r != [] {
      assert r[0] == a[0];
    }
  }

  /** `s.split(c)` for a one-character separator; never empty. */
  function Split(s: string, c: char): (r: seq<string>)
    ensures |r| >= 1
    ensures forall i | 0 <= i < |r| :: c !in r[i]
    decreases |s|
  {
    if c !in s then [s]
    else
      var i := FirstIndexOf(s, c);
      [s[..i]] + Split(s[i + 1..], c)
  }

  function FirstIndexOf(s: string, c: char): (i: nat)
    requires c in s
    ensures i < |s| && s[i] == c && c !in s[..i]
  {
    if s[0] == c then 0 else 1 + FirstIndexOf(s[1..], c)
  }

  /** `parts.join(sep)` */
  function Join(parts: seq<string>, sep: string): string
  {
    if parts == [] then ""
    else if |parts| == 1 then parts[0]
    else parts[0] + sep + Join(parts[1..], sep)
  }

  /** Splitting on a character and joining with it again gives the string back. */
  lemma {:induction false} JoinSplit(s: string, c: char)
    ensures Join(Split(s, c), [c]) == s
    decreases |s|
  {
    if c in s {
      var i := FirstIndexOf(s, c);
      var rest := Split(s[i + 1..], c);
      var parts := [s[..i]] + rest;
      assert Split(s, c) == parts;
      assert Join(parts, [c]) == s[..i] + [c] + Join(rest, [c]) by {
        assert parts[0] == s[..i] && parts[1..] == rest && |parts| >= 2;
      }
      JoinSplit(s[i + 1..], c);
      assert s == s[..i] + [c] + s[i + 1..];
    }
  }

  function Digit(d: nat): char
    requires d < 10
  {
    ('0' as int + d) as char
  }

  /** `String(n)` for a natural number. */
  function NatToString(n: nat): (r: string)
    ensures |r| >= 1
    ensures n >= 10 ==> |r| >= 2
    ensures forall i | 0 <= i < |r| :: '0' <= r[i] <= '9'
    ensures r[0] == '0' ==> n == 0
  {
    if n < 10 then [Digit(n)] else NatToString(n / 10) + [Digit(n % 10)]
  }

  /** Different numbers print differently. */
  lemma {:induction false} NatToStringInjective(n: nat, m: nat)
    requires NatToString(n) == NatToString(m)
    ensures n == m
  {
    if n >= 10 && m >= 10 {
      var a := NatToString(n);
      assert a[..|a| - 1] == NatToString(n / 10);
      assert a[|a| - 1] == Digit(n % 10);
      assert NatToString(m)[..|a| - 1] == NatToString(m / 10);
      NatToStringInjective(n / 10, m / 10);
      assert Digit(n % 10) == Digit(m % 10);
    }
  }

  /** `String(n)` for an integer. */
  function IntToString(n: int): string
  {
    if n < 0 then "-" + NatToString(-n) else NatToString(n)
  }

  /** `s.padStart(width, c)` with a one-character pad. */
  function PadStart(s: string, width: nat, c: char): (r: string)
    ensures |s| >= width ==> r == s
    ensures |s| < width ==> |r| == width && r[width - |s|..] == s
    ensures forall i | 0 <= i < |r| - |s| :: r[i] == c
  {
    if |s| >= width then s else seq(width - |s|, _ => c) + s
  }

  /** `s.replace(p, q)` with a string pattern: only the first occurrence. */
  function ReplaceFirst(s: string, p: string, q: string): (r: string)
    ensures !Contains(s, p) ==> r == s
    ensures Contains(s, p) ==>
      exists i | 0 <= i <= |s| && FirstAt(s, p, i) :: r == s[..i] + q + s[i + |p|..]
  {
    var i := IndexOf(s, p);
    if i < 0 then s else s[..i] + q + s[i + |p|..]
  }

  /**
   * `s.split(p)[1]` for a non-empty string pattern: the text after the first
   * occurrence of `p` up to the next one, or `undefined` when `p` does not occur.
   */
  function SecondPiece(s: string, p: string): (r: Option<string>)
    requires p != ""
    ensures r.None? <==> !Contains(s, p)
    ensures r.Some? ==> PieceAfterFirst(s, p, r.value)
  {
    var i := IndexOf(s, p);
    if i < 0 then None
    else
      var rest := s[i + |p|..];
      var j := IndexOf(rest, p);
      if j < 0 then
        PieceEnds(s, p, i, rest, j, rest);
        Some(rest)
      else
        PieceEnds(s, p, i, rest, j, rest[..j]);
        Some(rest[..j])
  }

  /**
   * `piece` starts right after the first occurrence of `p` in `s` and runs
   * up to the next occurrence, or to the end of `s` when there is none.
   */
  predicate PieceAfterFirst(s: string, p: string, piece: string)
  {
    exists i | 0 <= i <= |s| :: PieceAt(s, p, i, piece)
  }

  /** The first occurrence of `p` is at `i`, and `piece` runs from its end to the next one. */
  predicate PieceAt(s: string, p: string, i: int, piece: string)
  {
    FirstAt(s, p, i) && PieceFrom(s, p, i + |p|, piece)
  }

  /** `p` occurs at `i` and nowhere before. */
  predicate FirstAt(s: string, p: string, i: int)
  {
    OccursAt(s, p, i) && forall k | 0 <= k < i :: !OccursAt(s, p, k)
  }

  /** `piece` is the text of `s` from `m` up to the next occurrence of `p`, or to the end. */
  predicate PieceFrom(s: string, p: string, m: int, piece: string)
  {
    0 <= m && m + |piece| <= |s| && s[m..m + |piece|] == piece
    && (m + |piece| == |s| || OccursAt(s, p, m + |piece|))
    && forall k | m <= k < m + |piece| :: !OccursAt(s, p, k)
  }

  /** The text after the first occurrence is one text: `PieceAfterFirst` pins it down. */
  lemma PieceAfterFirstUnique(s: string, p: string, a: string, b: string)
    requires p != "" && PieceAfterFirst(s, p, a) && PieceAfterFirst(s, p, b)
    ensures a == b
  {
    var i :| 0 <= i <= |s| && PieceAt(s, p, i, a);
    var j :| 0 <= j <= |s| && PieceAt(s, p, j, b);
    PieceAtUnique(s, p, i, j, a, b);
  }

  lemma PieceAtUnique(s: string, p: string, i: int, j: int, a: string, b: string)
    requires p != "" && PieceAt(s, p, i, a) && PieceAt(s, p, j, b)
    ensures a == b
  {
    FirstAtUnique(s, p, i, j);
    PieceFromUnique(s, p, i + |p|, a, b);
  }

  lemma FirstAtUnique(s: string, p: string, i: int, j: int)
    requires FirstAt(s, p, i) && FirstAt(s, p, j)
    ensures i == j
  {
  }

  lemma PieceFromUnique(s: string, p: string, m: int, a: string, b: string)
    requires p != "" && PieceFrom(s, p, m, a) && PieceFrom(s, p, m, b)
    ensures a == b
  {
    assert |a| == |b|;
  }

  /** The piece `SecondPiece` cuts out of the rest after the first occurrence at `i` is the one `PieceAfterFirst` describes. */
  lemma PieceEnds(s: string, p: string, i: int, rest: string, j: int, piece: string)
    requires p != "" && FirstAt(s, p, i) && rest == s[i + |p|..]
    requires j >= -1 && (j == -1 <==> !Contains(rest, p))
    requires j >= 0 ==> OccursAt(rest, p, j) && forall k | 0 <= k < j :: !OccursAt(rest, p, k)
    requires piece == if j < 0 then rest else rest[..j]
    ensures PieceAfterFirst(s, p, piece)
  {
    var m := i + |p|;
    forall k | 0 <= k ensures OccursAt(rest, p, k) == OccursAt(s, p, m + k) {
      OccursInSuffix(s, p, m, k);
    }
    var e := m + |piece|;
    assert s[m..e] == piece;
    forall k | m <= k < e ensures !OccursAt(s, p, k) {
      assert OccursAt(rest, p, k - m) == OccursAt(s, p, k);
    }
    assert e == |s| || OccursAt(s, p, e) by {
      if j >= 0 {
        assert OccursAt(rest, p, j) == OccursAt(s, p, e);
      }
    }
    assert PieceAt(s, p, i, piece);
  }

  /** An occurrence in the suffix from `m` is an occurrence in `s`, `m` positions later. */
  lemma OccursInSuffix(s: string, p: string, m: int, k: int)
    requires 0 <= m <= |s| && 0 <= k
    ensures OccursAt(s[m..], p, k) == OccursAt(s, p, m + k)
  {
    if k <= |s| - m - |p| {
      assert s[m..][k..k + |p|] == s[m + k..m + k + |p|];
    }
  }

  /** The ordering `Array.prototype.sort` uses for strings: code unit by code unit. */
  predicate Less(a: string, b: string)
  {
    if a == [] then b != []
    else if b == [] then false
    else if a[0] != b[0] then a[0] < b[0]
    else Less(a[1..], b[1..])
  }

  lemma {:induction false} LessIrreflexive(a: string)
    ensures !Less(a, a)
  {
    if a != [] { LessIrreflexive(a[1..]); }
  }

  lemma {:induction false} LessTotal(a: string, b: string)
    ensures a == b || Less(a, b) || Less(b, a)
  {
    if a != [] && b != [] && a[0] == b[0] {
      LessTotal(a[1..], b[1..]);
      if a[1..] == b[1..] { assert a == [a[0]] + a[1..]; assert b == [b[0]] + b[1..]; }
    }
  }

  lemma {:induction false} LessAsymmetric(a: string, b: string)
    requires Less(a, b)
    ensures !Less(b, a)
  {
    if a != [] && b != [] && a[0] == b[0] { LessAsymmetric(a[1..], b[1..]); }
  }

  lemma {:induction false} LessTransitive(a: string, b: string, c: string)
    requires Less(a, b) && Less(b, c)
    ensures Less(a, c)
  {
    if a != [] && b != [] && c != [] && a[0] == b[0] && b[0] == c[0] {
      LessTransitive(a[1..], b[1..], c[1..]);
    }
  }
}
