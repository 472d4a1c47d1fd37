/** The Rust `str` operations that the shell's parsers and labels rely on,
    over strings as sequences of Unicode scalar values (Rust's `char`). */
module RustText {
  import opened Wrappers

  const U32_MAX: int := 0xFFFF_FFFF
  const I32_MIN: int := -0x8000_0000
  const I32_MAX: int := 0x7FFF_FFFF

  // ---------------------------------------------------------------------
  // Decimal numerals: `format!("{}", n)` and `str::parse::<u32 / i32>()`
  // ---------------------------------------------------------------------

  predicate IsDigit(c: char) { '0' <= c <= '9' }

  predicate AllDigits(s: string) { forall i :: 0 <= i < |s| ==> IsDigit(s[i]) }

  function DigitValue(c: char): nat
    requires IsDigit(c)
  {
    c as int - '0' as int
  }

  function DigitChar(d: nat): (c: char)
    requires d < 10
    ensures IsDigit(c) && DigitValue(c) == d
  {
    ('0' as int + d) as char
  }

  /** The number a run of decimal digits denotes, most significant digit first. */
  function DigitsValue(s: string): nat
    requires AllDigits(s)
  {
    if s == [] then 0 else 10 * DigitsValue(s[..|s| - 1]) + DigitValue(s[|s| - 1])
  }

  /** `format!("{}", n)`: the shortest decimal numeral of `n`. */
  function NatToString(n: nat): (s: string)
    ensures |s| > 0 && AllDigits(s) && DigitsValue(s) == n
    ensures |s| > 1 ==> s[0] != '0'
  {
    if n < 10 then [DigitChar(n)]
    else
      var prefix := NatToString(n / 10);
      var s := prefix + [DigitChar(n % 10)];
      assert s[..|s| - 1] == prefix;
      s
  }

  /** `format!("{}", i)` for a signed integer. */
  function IntToString(i: int): (s: string)
    ensures |s| > 0
    ensures (s[0] == '-') <==> i < 0
  {
    if i < 0 then "-" + NatToString(-i) else NatToString(i)
  }

  /** `str::parse::<u32>()`: an optional `+` followed by at least one decimal
      digit, denoting a value no larger than `u32::MAX`. */
  function ParseU32(s: string): (r: Option<nat>)
    ensures r.Some? ==> r.value <= U32_MAX
    ensures r.Some? ==> |s| > 0
  {
    var digits := if |s| > 0 && s[0] == '+' then s[1..] else s;
    if |digits| > 0 && AllDigits(digits) && DigitsValue(digits) <= U32_MAX
    then Some(DigitsValue(digits))
    else None
  }

  /** `str::parse::<i32>()`: an optional `+` or `-` followed by at least one
      decimal digit, denoting a value in the range of `i32`. */
  function ParseI32(s: string): (r: Option<int>)
    ensures r.Some? ==> I32_MIN <= r.value <= I32_MAX
    ensures r.Some? ==> |s| > 0
  {
    if |s| > 0 && s[0] == '-' then
      var digits := s[1..];
      if |digits| > 0 && AllDigits(digits) && DigitsValue(digits) <= -I32_MIN
      then Some(0 - DigitsValue(digits) as int)
      else None
    else
      var digits := if |s| > 0 && s[0] == '+' then s[1..] else s;
      if |digits| > 0 && AllDigits(digits) && DigitsValue(digits) <= I32_MAX
      then Some(DigitsValue(digits))
      else None
  }

  /** Rendering a `u32` and parsing it back gives the same number. */
  lemma ParseU32RoundTrip(n: nat)
    requires n <= U32_MAX
    ensures ParseU32(NatToString(n)) == Some(n)
  {
    var s := NatToString(n);
    assert IsDigit(s[0]);
  }

  /** Rendering an `i32` and parsing it back gives the same number. */
  lemma ParseI32RoundTrip(i: int)
    requires I32_MIN <= i <= I32_MAX
    ensures ParseI32(IntToString(i)) == Some(i)
  {
    var s := IntToString(i);
    if i < 0 {
      assert s[1..] == NatToString(-i);
    } else {
      assert IsDigit(s[0]);
    }
  }

  /** `x as u32` for a finite `x`: rounds toward zero and saturates. */
  function ToU32(x: real): (n: nat)
    ensures n <= U32_MAX
    ensures 0.0 <= x < U32_MAX as real ==> n == x.Floor
    ensures x < 1.0 ==> n == 0
  {
    if x <= 0.0 then 0 else if x >= U32_MAX as real then U32_MAX else x.Floor
  }

  /** `str::rfind(c)`: the index of the last occurrence of `c`. */
  function RFindChar(s: string, c: char): (r: Option<nat>)
    ensures r.Some? ==> r.value < |s| && s[r.value] == c
    ensures r.Some? ==> forall j :: r.value < j < |s| ==> s[j] != c
    ensures r.None? <==> c !in s
  {
    if s == [] then None
    else if s[|s| - 1] == c then Some(|s| - 1)
    else
      assert s == s[..|s| - 1] + [s[|s| - 1]];
      RFindChar(s[..|s| - 1], c)
  }

  function Pow10(n: nat): (p: nat)
    ensures p >= 1
  {
    if n == 0 then 1 else 10 * Pow10(n - 1)
  }

  /** `str::parse::<f64>()` on plain decimal notation: an optional sign,
      then digits with at most one '.', and at least one digit in all. */
  function ParseDecimal(s: string): (r: Option<real>)
    ensures r.Some? ==> |s| > 0
  {
    var body := if |s| > 0 && (s[0] == '+' || s[0] == '-') then s[1..] else s;
    var sign := if |s| > 0 && s[0] == '-' then -1.0 else 1.0;
    match RFindChar(body, '.')
    case None =>
      if |body| > 0 && AllDigits(body) then Some(sign * DigitsValue(body) as real) else None
    case Some(p) =>
      var whole, fraction := body[..p], body[p + 1..];
      if |whole| + |fraction| > 0 && AllDigits(whole) && AllDigits(fraction)
      then Some(sign * (DigitsValue(whole) as real + DigitsValue(fraction) as real / Pow10(|fraction|) as real))
      else None
  }

  /** A rendered whole number parses back to itself. */
  lemma ParseDecimalWhole(n: nat)
    ensures ParseDecimal(NatToString(n)) == Some(n as real)
  {
    var s := NatToString(n);
    assert IsDigit(s[0]);
    DigitsHaveNo(s, '.');
  }

  /** A run of digits contains no non-digit character. */
  lemma DigitsHaveNo(s: string, c: char)
    requires AllDigits(s) && !IsDigit(c)
    ensures c !in s
  {
    forall i | 0 <= i < |s| ensures s[i] != c {
      assert IsDigit(s[i]);
    }
  }

  /** A run of digits within range parses to the number it denotes. */
  lemma ParseDigits(s: string)
    requires |s| > 0 && AllDigits(s) && DigitsValue(s) <= U32_MAX
    ensures ParseU32(s) == Some(DigitsValue(s))
  {
    assert IsDigit(s[0]);
  }

  /** The integer nearest to `x`, a tie going to the even neighbour, as
      formatting with precision 0 rounds. */
  function RoundHalfEven(x: real): (n: int)
    ensures -0.5 <= (n as real) - x <= 0.5
  {
    var f := x.Floor;
    var frac := x - f as real;
    if frac < 0.5 then f
    else if frac > 0.5 then f + 1
    else if f % 2 == 0 then f else f + 1
  }

  /** Formatting with precision 0 for a finite `x`: a minus sign for any negative
      value, even one that rounds to zero, then the rounded magnitude. */
  function FormatNoDecimals(x: real): (s: string)
    ensures |s| > 0
    ensures (s[0] == '-') <==> x < 0.0
  {
    if x < 0.0 then "-" + NatToString(RoundHalfEven(-x)) else NatToString(RoundHalfEven(x))
  }

  /** A whole number is printed as is. */
  lemma FormatNoDecimalsWhole(n: nat)
    ensures FormatNoDecimals(n as real) == NatToString(n)
  {
  }

  // ---------------------------------------------------------------------
  // Searching: `str::find`, `contains`, `split_once`, `starts_with`
  // ---------------------------------------------------------------------

  /** `pat` occurs in `s` starting at index `i`. */
  predicate MatchesAt(s: string, pat: string, i: nat) {
    i + |pat| <= |s| && s[i..i + |pat|] == pat
  }

  function FindFrom(s: string, pat: string, i: nat): (r: Option<nat>)
    requires i <= |s|
    decreases |s| - i
    ensures r.Some? ==> i <= r.value && MatchesAt(s, pat, r.value)
    ensures r.Some? ==> forall j :: i <= j < r.value ==> !MatchesAt(s, pat, j)
    ensures r.None? ==> forall j :: i <= j <= |s| ==> !MatchesAt(s, pat, j)
  {
    if MatchesAt(s, pat, i) then Some(i)
    else if i == |s| then None
    else FindFrom(s, pat, i + 1)
  }

  /** `str::find`: the index of the first occurrence of `pat` in `s`. */
  function Find(s: string, pat: string): (r: Option<nat>)
    ensures r.Some? ==> MatchesAt(s, pat, r.value)
    ensures r.Some? ==> forall j :: 0 <= j < r.value ==> !MatchesAt(s, pat, j)
    ensures r.None? ==> forall j :: 0 <= j <= |s| ==> !MatchesAt(s, pat, j)
  {
    FindFrom(s, pat, 0)
  }

  /** `str::contains`. */
  predicate Contains(s: string, pat: string) {
    Find(s, pat).Some?
  }

  /** `str::starts_with`. */
  predicate StartsWith(s: string, prefix: string) {
    |prefix| <= |s| && s[..|prefix|] == prefix
  }

  /** `str::split_once`: the text before and after the first occurrence of `sep`. */
  function SplitOnce(s: string, sep: string): (r: Option<(string, string)>)
    ensures r.Some? ==> r.value.0 + sep + r.value.1 == s
    ensures r.Some? ==> forall j :: 0 <= j < |r.value.0| ==> !MatchesAt(s, sep, j)
    ensures r.None? <==> forall j :: 0 <= j <= |s| ==> !MatchesAt(s, sep, j)
  {
    match Find(s, sep)
    case None => None
    case Some(i) =>
      assert s == s[..i] + s[i..i + |sep|] + s[i + |sep|..];
      Some((s[..i], s[i + |sep|..]))
  }

  /** Splitting a string built around the first occurrence of `sep` recovers its parts. */
  lemma {:induction false} SplitOnceJoin(a: string, sep: string, b: string)
    requires forall j :: 0 <= j < |a| ==> !MatchesAt(a + sep + b, sep, j)
    ensures SplitOnce(a + sep + b, sep) == Some((a, b))
  {
    var s := a + sep + b;
    assert MatchesAt(s, sep, |a|) by { assert s[|a|..|a| + |sep|] == sep; }
    var r := SplitOnce(s, sep);
    assert r.Some?;
    var i := |r.value.0|;
    assert i <= |a|;
    assert MatchesAt(s, sep, i) by {
      assert s == r.value.0 + sep + r.value.1;
      assert s[i..i + |sep|] == sep;
    }
    assert i == |a|;
    assert r.value.0 == s[..|a|] == a;
    assert r.value.1 == s[|a| + |sep|..] == b;
  }

  /** When the first character of `sep` does not occur in `a`, the first
      occurrence of `sep` in `a + sep + b` is the one right after `a`. */
  lemma SplitOnceAfterPrefix(a: string, sep: string, b: string)
    requires |sep| > 0 && sep[0] !in a
    ensures SplitOnce(a + sep + b, sep) == Some((a, b))
  {
    var s := a + sep + b;
    forall j | 0 <= j < |a| ensures !MatchesAt(s, sep, j) {
      assert s[j] == a[j];
    }
    SplitOnceJoin(a, sep, b);
  }

  /** The same, for `find`: the first occurrence starts right after `a`. */
  lemma FindAfterPrefix(a: string, sep: string, b: string)
    requires |sep| > 0 && sep[0] !in a
    ensures Find(a + sep + b, sep) == Some(|a|)
  {
    SplitOnceAfterPrefix(a, sep, b);
  }

  // ---------------------------------------------------------------------
  // `str::split(c)` and `str::lines()`
  // ---------------------------------------------------------------------

  /** `str::split(c).collect()`: the pieces between occurrences of `c`. */
  function SplitChar(s: string, c: char): (r: seq<string>)
    ensures |r| == multiset(s)[c] + 1
    ensures forall k :: 0 <= k < |r| ==> c !in r[k]
  {
    if s == [] then [[]]
    else
      var rest := SplitChar(s[1..], c);
      assert s == [s[0]] + s[1..];
      if s[0] == c then [[]] + rest
      else [[s[0]] + rest[0]] + rest[1..]
  }

  /** Pieces glued back together with `c` between neighbours. */
  function JoinWith(pieces: seq<string>, c: char): string
    requires |pieces| > 0
  {
    if |pieces| == 1 then pieces[0] else pieces[0] + [c] + JoinWith(pieces[1..], c)
  }

  /** Splitting at every `c` and joining with `c` gives back the input. */
  lemma {:induction false} SplitCharJoin(s: string, c: char)
    ensures JoinWith(SplitChar(s, c), c) == s
  {
    if s != [] {
      assert [s[0]] + s[1..] == s;
      var rest := SplitChar(s[1..], c);
      SplitCharCons(s, c);
      SplitCharJoin(s[1..], c);
      if s[0] == c {
        JoinWithEmptyHead(rest, c);
      } else {
        JoinWithPrepend(s[0], rest, c);
      }
    }
  }

  /** Splitting a non-empty string: a leading `c` starts an empty piece,
      any other first character joins the first piece of the rest. */
  lemma SplitCharCons(s: string, c: char)
    requires s != []
    ensures s[0] == c ==> SplitChar(s, c) == [[]] + SplitChar(s[1..], c)
    ensures s[0] != c ==> SplitChar(s, c) == [[s[0]] + SplitChar(s[1..], c)[0]] + SplitChar(s[1..], c)[1..]
  {
  }

  lemma JoinWithEmptyHead(rest: seq<string>, c: char)
    requires |rest| > 0
    ensures JoinWith([[]] + rest, c) == [c] + JoinWith(rest, c)
  {
    assert ([[]] + rest)[1..] == rest;
  }

  lemma JoinWithPrepend(ch: char, rest: seq<string>, c: char)
    requires |rest| > 0
    ensures JoinWith([[ch] + rest[0]] + rest[1..], c) == [ch] + JoinWith(rest, c)
  {
    var r := [[ch] + rest[0]] + rest[1..];
    if |rest| > 1 {
      assert r[1..] == rest[1..];
      var tail := JoinWith(rest[1..], c);
      calc {
        JoinWith(r, c);
        ([ch] + rest[0]) + [c] + tail;
        [ch] + (rest[0] + [c] + tail);
        [ch] + JoinWith(rest, c);
      }
    }
  }

  /** A line with its `\r` terminator removed, as `lines()` does before a `\n`. */
  function StripCr(line: string): string {
    if |line| > 0 && line[|line| - 1] == '\r' then line[..|line| - 1] else line
  }

  /** `str::lines()`: pieces between `\n`, a `\r` before a `\n` dropped, and no
      empty line after a final `\n`. */
  function Lines(s: string): (r: seq<string>)
    ensures forall k :: 0 <= k < |r| ==> '\n' !in r[k]
    ensures s == [] ==> r == []
  {
    var pieces := SplitChar(s, '\n');
    var n := if pieces[|pieces| - 1] == [] then |pieces| - 1 else |pieces|;
    seq(n, k requires 0 <= k < n => if k < |pieces| - 1 then StripCr(pieces[k]) else pieces[k])
  }

  // ---------------------------------------------------------------------
  // Whitespace: `trim`, `split_whitespace`, `eq_ignore_ascii_case`
  // ---------------------------------------------------------------------

  /** Unicode `White_Space`, the set `char::is_whitespace` accepts. */
  predicate IsWhitespace(c: char) {
    ('\t' <= c <= '\r') || c == ' ' || c == '\U{85}' || c == '\U{A0}' || c == '\U{1680}'
    || ('\U{2000}' <= c <= '\U{200A}') || c == '\U{2028}' || c == '\U{2029}'
    || c == '\U{202F}' || c == '\U{205F}' || c == '\U{3000}'
  }

  predicate AllWhitespace(s: string) {
    forall i :: 0 <= i < |s| ==> IsWhitespace(s[i])
  }

  /** `str::trim_start`. */
  function TrimStart(s: string): (r: string)
    ensures |r| <= |s| && r == s[|s| - |r|..]
    ensures AllWhitespace(s[..|s| - |r|])
    ensures r != [] ==> !IsWhitespace(r[0])
  {
    if s != [] && IsWhitespace(s[0]) then
      var r := TrimStart(s[1..]);
      assert s[..|s| - |r|] == [s[0]] + s[1..][..|s| - 1 - |r|];
      r
    else s
  }

  /** `str::trim_end`. */
  function TrimEnd(s: string): (r: string)
    ensures |r| <= |s| && r == s[..|r|]
    ensures AllWhitespace(s[|r|..])
    ensures r != [] ==> !IsWhitespace(r[|r| - 1])
  {
    if s != [] && IsWhitespace(s[|s| - 1]) then
      var r := TrimEnd(s[..|s| - 1]);
      assert s[|r|..] == s[..|s| - 1][|r|..] + [s[|s| - 1]];
      r
    else s
  }

  /** `str::trim`. */
  function Trim(s: string): (r: string)
    ensures r == [] || (!IsWhitespace(r[0]) && !IsWhitespace(r[|r| - 1]))
  {
    TrimEnd(TrimStart(s))
  }

  /** A string with no whitespace at either end is its own trim. */
  lemma TrimKeepsTrimmed(t: string)
    requires t == [] || (!IsWhitespace(t[0]) && !IsWhitespace(t[|t| - 1]))
    ensures Trim(t) == t
  {
    assert TrimStart(t) == t;
  }

  /** `s.trim().is_empty()` holds exactly for strings made of whitespace only. */
  lemma TrimEmptyIffBlank(s: string)
    ensures Trim(s) == [] <==> AllWhitespace(s)
  {
    var t := TrimStart(s);
    if Trim(s) == [] {
      assert t == [];
      assert s[..|s|] == s;
    }
  }

  /** The longest prefix of `s` without whitespace. */
  function WordPrefix(s: string): (w: string)
    ensures |w| <= |s| && w == s[..|w|]
    ensures IsWord(w)
    ensures |w| < |s| ==> IsWhitespace(s[|w|])
  {
    if s == [] || IsWhitespace(s[0]) then []
    else
      var rest := WordPrefix(s[1..]);
      [s[0]] + rest
  }

  /** `str::split_whitespace().collect()`: the maximal runs without whitespace. */
  function SplitWhitespace(s: string): (r: seq<string>)
    ensures forall k :: 0 <= k < |r| ==> r[k] != [] && IsWord(r[k])
    decreases |s|
  {
    var t := TrimStart(s);
    if t == [] then []
    else
      var w := WordPrefix(t);
      assert |w| > 0 by {
        assert !IsWhitespace(t[0]);
      }
      var rest := SplitWhitespace(t[|w|..]);
      WordsCons(w, rest);
      [w] + rest
  }

  lemma WordsCons(w: string, rest: seq<string>)
    requires w != [] && IsWord(w)
    requires forall k :: 0 <= k < |rest| ==> rest[k] != [] && IsWord(rest[k])
    ensures forall k :: 0 <= k < |[w] + rest| ==> ([w] + rest)[k] != [] && IsWord(([w] + rest)[k])
  {
    forall k | 0 <= k < |[w] + rest| ensures ([w] + rest)[k] != [] && IsWord(([w] + rest)[k]) {
      if k > 0 {
        assert ([w] + rest)[k] == rest[k - 1];
      }
    }
  }

  /** A non-empty run without whitespace. */
  predicate IsWord(w: string) {
    forall i :: 0 <= i < |w| ==> !IsWhitespace(w[i])
  }

  /** `char::to_ascii_lowercase`. */
  function AsciiLower(c: char): char {
    if 'A' <= c <= 'Z' then (c as int + 32) as char else c
  }

  /** `str::eq_ignore_ascii_case`. */
  predicate EqIgnoreAsciiCase(a: string, b: string) {
    |a| == |b| && forall i :: 0 <= i < |a| ==> AsciiLower(a[i]) == AsciiLower(b[i])
  }
}
