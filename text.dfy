/**
 * The parts of Go's `strings`, `strconv` and `unicode` packages that the
 * utilities and services lean on, over Dafny strings (sequences of Unicode
 * scalar values, which is what Go's `range` over a valid UTF-8 string yields).
 */
module Text {
  import opened Wrappers

  // ---------------------------------------------------------------------------
  // unicode.IsSpace and strings.TrimSpace
  // ---------------------------------------------------------------------------

  /** unicode.IsSpace: the Latin-1 spaces and the other White_Space code points. */
  predicate IsSpace(c: char)
  {
    || c == '\t' || c == '\n' || c == '\U{000B}' || c == '\U{000C}' || c == '\r' || c == ' '
    || c == '\U{0085}' || c == '\U{00A0}' || c == '\U{1680}'
    || ('\U{2000}' <= c <= '\U{200A}')
    || c == '\U{2028}' || c == '\U{2029}' || c == '\U{202F}' || c == '\U{205F}' || c == '\U{3000}'
  }

  /** Number of white-space characters at the start of `s`. */
  function LeadingSpaces(s: string): (n: nat)
    ensures n <= |s|
    ensures forall i :: 0 <= i < n ==> IsSpace(s[i])
    ensures n < |s| ==> !IsSpace(s[n])
  {
    if s == [] || !IsSpace(s[0]) then 0 else 1 + LeadingSpaces(s[1..])
  }

  /** Number of white-space characters at the end of `s`. */
  function TrailingSpaces(s: string): (n: nat)
    ensures n <= |s|
    ensures forall i :: |s| - n <= i < |s| ==> IsSpace(s[i])
    ensures n < |s| ==> !IsSpace(s[|s| - 1 - n])
  {
    if s == [] || !IsSpace(s[|s| - 1]) then 0 else 1 + TrailingSpaces(s[..|s| - 1])
  }

  /**
   * strings.TrimSpace: `s` without its leading and trailing white space. The
   * result is the infix of `s` that starts at `LeadingSpaces(s)`; everything cut
   * away is white space and the result neither starts nor ends with white space.
   */
  function TrimSpace(s: string): (r: string)
    ensures |r| + LeadingSpaces(s) <= |s|
    ensures r == s[LeadingSpaces(s)..LeadingSpaces(s) + |r|]
    ensures forall i :: LeadingSpaces(s) + |r| <= i < |s| ==> IsSpace(s[i])
    ensures r != [] ==> !IsSpace(r[0]) && !IsSpace(r[|r| - 1])
    ensures r == [] <==> forall i :: 0 <= i < |s| ==> IsSpace(s[i])
  {
    var a := LeadingSpaces(s);
    var b := TrailingSpaces(s[a..]);
    TrimmedEnds(s, a, b);
    TrimmedEmpty(s, a, b);
    s[a..|s| - b]
  }

  /** What cutting `a` leading and `b` trailing spaces leaves, and what it cuts. */
  lemma TrimmedEnds(s: string, a: nat, b: nat)
    requires a == LeadingSpaces(s) && b == TrailingSpaces(s[a..])
    ensures a + b <= |s|
    ensures forall i :: |s| - b <= i < |s| ==> IsSpace(s[i])
    ensures a < |s| - b ==> !IsSpace(s[a]) && !IsSpace(s[|s| - b - 1])
  {
    forall i | |s| - b <= i < |s|
      ensures IsSpace(s[i])
    {
      SuffixIndex(s, a, i);
    }
    if a < |s| - b {
      TrimmedLast(s, a, b);
    }
  }

  lemma TrimmedLast(s: string, a: nat, b: nat)
    requires a == LeadingSpaces(s) && b == TrailingSpaces(s[a..]) && a < |s| - b
    ensures !IsSpace(s[|s| - b - 1])
  {
    SuffixIndex(s, a, |s| - b - 1);
  }

  lemma SuffixIndex(s: string, a: nat, j: nat)
    requires a <= j < |s|
    ensures s[a..][j - a] == s[j]
  {
  }

  /** Nothing is left exactly when every character is a space. */
  lemma TrimmedEmpty(s: string, a: nat, b: nat)
    requires a == LeadingSpaces(s) && b == TrailingSpaces(s[a..]) && a + b <= |s|
    ensures a == |s| - b <==> forall i :: 0 <= i < |s| ==> IsSpace(s[i])
  {
  }

  lemma TrimSpaceOfTrimmed(s: string)
    requires s == [] || (!IsSpace(s[0]) && !IsSpace(s[|s| - 1]))
    ensures TrimSpace(s) == s
  {
  }

  // ---------------------------------------------------------------------------
  // strings.Split and strings.Join with a one-character separator
  // ---------------------------------------------------------------------------

  /** strings.Join(parts, string(sep)). */
  function Join(parts: seq<string>, sep: char): string
  {
    if |parts| == 0 then []
    else if |parts| == 1 then parts[0]
    else parts[0] + [sep] + Join(parts[1..], sep)
  }

  /** Number of occurrences of `c` in `s`. */
  function Count(s: string, c: char): nat
  {
    if s == [] then 0 else (if s[0] == c then 1 else 0) + Count(s[1..], c)
  }

  /**
   * strings.Split(s, string(sep)): the pieces between the separators. There is
   * always one more piece than there are separators (so "" splits into [""]),
   * no piece holds the separator, and joining the pieces gives `s` back.
   */
  function Split(s: string, sep: char): (parts: seq<string>)
    ensures |parts| == Count(s, sep) + 1
    ensures forall i :: 0 <= i < |parts| ==> sep !in parts[i]
    ensures Join(parts, sep) == s
  {
    if s == [] then [[]]
    else
      var rest := Split(s[1..], sep);
      if s[0] == sep then [[]] + rest
      else [[s[0]] + rest[0]] + rest[1..]
  }

  lemma {:induction false} SplitNoSeparator(p: string, sep: char)
    requires sep !in p
    ensures Split(p, sep) == [p]
  {
    if p != [] {
      SplitNoSeparator(p[1..], sep);
    }
  }

  lemma {:induction false} SplitAfterPiece(p: string, rest: string, sep: char)
    requires sep !in p
    ensures Split(p + [sep] + rest, sep) == [p] + Split(rest, sep)
  {
    if p == [] {
      assert p + [sep] + rest == [sep] + rest;
      assert ([sep] + rest)[1..] == rest;
    } else {
      var s := p + [sep] + rest;
      assert s[1..] == p[1..] + [sep] + rest;
      SplitAfterPiece(p[1..], rest, sep);
      assert [p[0]] + p[1..] == p;
    }
  }

  /** Splitting undoes joining when no piece holds the separator. */
  lemma {:induction false} SplitJoin(parts: seq<string>, sep: char)
    requires |parts| >= 1
    requires forall i :: 0 <= i < |parts| ==> sep !in parts[i]
    ensures Split(Join(parts, sep), sep) == parts
  {
    if |parts| == 1 {
      SplitNoSeparator(parts[0], sep);
    } else {
      SplitJoin(parts[1..], sep);
      SplitAfterPiece(parts[0], Join(parts[1..], sep), sep);
      assert [parts[0]] + parts[1..] == parts;
    }
  }

  // ---------------------------------------------------------------------------
  // strings.Contains and strings.ReplaceAll
  // ---------------------------------------------------------------------------

  /** strings.Contains(s, sub); every string contains "". */
  predicate HasSubstring(s: string, sub: string)
  {
    sub <= s || (s != [] && HasSubstring(s[1..], sub))
  }

  /** The occurrence test is the usual "some infix equals `sub`". */
  lemma {:induction false} HasSubstringAt(s: string, sub: string, i: nat)
    requires i + |sub| <= |s| && s[i..i + |sub|] == sub
    ensures HasSubstring(s, sub)
  {
    if i > 0 {
      assert s[1..][i - 1..i - 1 + |sub|] == s[i..i + |sub|];
      HasSubstringAt(s[1..], sub, i - 1);
    }
  }

  /**
   * strings.ReplaceAll(s, pattern, replacement): replaces the non-overlapping
   * occurrences of `pattern`, scanning from the left; an empty pattern matches before every character
   * and at the end. A string in which the pattern does not occur comes back unchanged.
   */
  function ReplaceAll(s: string, pattern: string, replacement: string): (r: string)
    ensures pattern != [] && !HasSubstring(s, pattern) ==> r == s
  {
    if pattern == [] then
      (if s == [] then replacement else replacement + [s[0]] + ReplaceAll(s[1..], pattern, replacement))
    else if s == [] then []
    else if pattern <= s then replacement + ReplaceAll(s[|pattern|..], pattern, replacement)
    else [s[0]] + ReplaceAll(s[1..], pattern, replacement)
  }

  // ---------------------------------------------------------------------------
  // Case mapping. Go uses the Unicode tables; here the per-character mapping is
  // a parameter (`mapping` for strings.ToLower and strings.ToUpper, `fold` for
  // strings.EqualFold).
  // ---------------------------------------------------------------------------

  /** strings.ToLower or strings.ToUpper, given the per-character mapping. */
  function MapCase(s: string, mapping: char -> char): (r: string)
  {
    seq(|s|, i requires 0 <= i < |s| => mapping(s[i]))
  }

  /** strings.EqualFold: same length and equal character by character after folding. */
  predicate EqualFold(a: string, b: string, fold: char -> char)
  {
    |a| == |b| && forall i :: 0 <= i < |a| ==> fold(a[i]) == fold(b[i])
  }

  // ---------------------------------------------------------------------------
  // strconv.Itoa and strconv.Atoi (64-bit int)
  // ---------------------------------------------------------------------------

  const MinInt64: int := -0x8000_0000_0000_0000
  const MaxInt64: int := 0x7FFF_FFFF_FFFF_FFFF

  predicate IsDigit(c: char) { '0' <= c <= '9' }

  predicate AllDigits(s: string)
  {
    forall i :: 0 <= i < |s| ==> IsDigit(s[i])
  }

  /** Value of a run of decimal digits, most significant first. */
  function DigitsValue(s: string): nat
    requires AllDigits(s)
  {
    if s == [] then 0 else DigitsValue(s[..|s| - 1]) * 10 + (s[|s| - 1] - '0') as int
  }

  function DigitChar(d: nat): (c: char)
    requires d < 10
    ensures IsDigit(c) && (c - '0') as int == d
  {
    ['0', '1', '2', '3', '4', '5', '6', '7', '8', '9'][d]
  }

  /**
   * strconv.Itoa on a non-negative value: a non-empty run of digits without
   * leading zeros whose value is `n`.
   */
  function Itoa(n: nat): (r: string)
    ensures r != [] && AllDigits(r)
    ensures DigitsValue(r) == n
    ensures r[0] == '0' ==> n == 0
    ensures n == 0 ==> r == "0"
    ensures |r| > 1 ==> r[0] != '0'
  {
    if n < 10 then [DigitChar(n)]
    else
      var r := Itoa(n / 10) + [DigitChar(n % 10)];
      assert r[..|r| - 1] == Itoa(n / 10);
      r
  }

  /**
   * strconv.Atoi: an optional sign followed by at least one decimal digit, and
   * a value inside the 64-bit range; anything else is an error (None).
   */
  function Atoi(s: string): (r: Option<int>)
    ensures r.Some? ==> MinInt64 <= r.value <= MaxInt64
    ensures r.Some? ==> s != [] && (IsDigit(s[0]) || s[0] == '+' || s[0] == '-')
  {
    if s == [] then None
    else
      var signed := s[0] == '+' || s[0] == '-';
      var body := if signed then s[1..] else s;
      if body == [] || !AllDigits(body) then None
      else
        var magnitude: int := DigitsValue(body);
        var v := if s[0] == '-' then -magnitude else magnitude;
        if v < MinInt64 || v > MaxInt64 then None else Some(v)
  }

  /** Atoi reads back what Itoa writes. */
  lemma AtoiItoa(n: nat)
    requires n <= MaxInt64
    ensures Atoi(Itoa(n)) == Some(n)
  {
    var s := Itoa(n);
    assert IsDigit(s[0]);
  }

  /** Itoa never writes white space or a dot. */
  lemma ItoaPlain(n: nat)
    ensures '.' !in Itoa(n)
    ensures !IsSpace(Itoa(n)[0]) && !IsSpace(Itoa(n)[|Itoa(n)| - 1])
  {
    var s := Itoa(n);
    assert IsDigit(s[0]) && IsDigit(s[|s| - 1]);
    assert forall i :: 0 <= i < |s| ==> s[i] != '.';
  }
}
