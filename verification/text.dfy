/**
 * Character classes and string operations used by the note parsers. They
 * stand for the Python string methods and regular-expression calls of the
 * backend, over ASCII: `\d` is '0'..'9', `\w` is an ASCII letter, digit or
 * '_', `\s` and `str.isspace` are the ASCII whitespace characters, and
 * `lower`/`upper` change only 'A'..'Z' and 'a'..'z'.
 */
module Text {
  import opened Wrappers

  predicate IsDigit(c: char) { '0' <= c <= '9' }

  predicate IsNotDigit(c: char) { !IsDigit(c) }

  predicate IsUpperLetter(c: char) { 'A' <= c <= 'Z' }

  predicate IsLowerLetter(c: char) { 'a' <= c <= 'z' }

  /** The characters Python's `\w` matches, restricted to ASCII. */
  predicate IsWordChar(c: char) { IsDigit(c) || IsUpperLetter(c) || IsLowerLetter(c) || c == '_' }

  predicate IsNotWordChar(c: char) { !IsWordChar(c) }

  /** The ASCII characters for which `str.isspace` holds (and `\s` matches). */
  predicate IsSpace(c: char) {
    c == ' ' || c == '\t' || c == '\n' || c == '\r' || c == '\U{0B}' || c == '\U{0C}' || '\U{1C}' <= c <= '\U{1F}'
  }

  predicate AllDigits(s: string) { forall i :: 0 <= i < |s| ==> IsDigit(s[i]) }

  function ToLower(c: char): char { if IsUpperLetter(c) then (c as int + 32) as char else c }

  function ToUpper(c: char): char { if IsLowerLetter(c) then (c as int - 32) as char else c }

  /** `str.lower()`. */
  function Lower(s: string): (r: string)
    ensures |r| == |s| && forall i :: 0 <= i < |s| ==> r[i] == ToLower(s[i])
  {
    if s == [] then [] else [ToLower(s[0])] + Lower(s[1..])
  }

  /** `str.upper()`. */
  function Upper(s: string): (r: string)
    ensures |r| == |s| && forall i :: 0 <= i < |s| ==> r[i] == ToUpper(s[i])
  {
    if s == [] then [] else [ToUpper(s[0])] + Upper(s[1..])
  }

  function LStrip(s: string): (r: string)
    ensures |r| <= |s| && r == s[|s| - |r|..]
    ensures r != [] ==> !IsSpace(r[0])
  {
    if s != [] && IsSpace(s[0]) then LStrip(s[1..]) else s
  }

  function RStrip(s: string): (r: string)
    ensures |r| <= |s| && r == s[..|r|]
    ensures r != [] ==> !IsSpace(r[|r| - 1])
  {
    if s != [] && IsSpace(s[|s| - 1]) then RStrip(s[..|s| - 1]) else s
  }

  /** `str.strip()`: leading and trailing whitespace removed. */
  function Strip(s: string): (r: string)
    ensures |r| <= |s|
    ensures r != [] ==> !IsSpace(r[0]) && !IsSpace(r[|r| - 1])
  {
    RStrip(LStrip(s))
  }

  predicate StartsWith(s: string, p: string) { |p| <= |s| && s[..|p|] == p }

  predicate EndsWith(s: string, p: string) { |p| <= |s| && s[|s| - |p|..] == p }

  /** Number of leading characters of `s` that are not separators. */
  function RunLength(s: string, sep: char -> bool): (n: nat)
    ensures n <= |s|
    ensures forall i :: 0 <= i < n ==> !sep(s[i])
    ensures n < |s| ==> sep(s[n])
  {
    if s == [] || sep(s[0]) then 0 else 1 + RunLength(s[1..], sep)
  }

  /**
   * The maximal runs of non-separator characters, in order. This is
   * `str.split()` for `sep == IsSpace`, `re.findall(r'\d+', s)` for
   * `sep == IsNotDigit`, and `re.split` on a character class followed by
   * dropping the empty pieces.
   */
  function Tokens(s: string, sep: char -> bool): (ts: seq<string>)
    decreases |s|
  {
    if s == [] then []
    else if sep(s[0]) then Tokens(s[1..], sep)
    else
      var n := RunLength(s, sep);
      [s[..n]] + Tokens(s[n..], sep)
  }

  /** Every token is non-empty and free of separators. */
  lemma {:induction false} TokensShape(s: string, sep: char -> bool)
    ensures forall t :: t in Tokens(s, sep) ==> t != [] && forall i :: 0 <= i < |t| ==> !sep(t[i])
    decreases |s|
  {
    if s == [] {
    } else if sep(s[0]) {
      TokensShape(s[1..], sep);
    } else {
      var n := RunLength(s, sep);
      TokensShape(s[n..], sep);
    }
  }

  /** A string with no separator at all is one token. */
  lemma {:induction false} TokensOfWord(w: string, sep: char -> bool)
    requires w != [] && forall i :: 0 <= i < |w| ==> !sep(w[i])
    ensures Tokens(w, sep) == [w]
  {
    var n := RunLength(w, sep);
    assert !sep(w[0]);
    assert n == |w|;
    assert w[n..] == [] && w[..n] == w;
    calc {
      Tokens(w, sep);
      [w[..n]] + Tokens(w[n..], sep);
      [w] + Tokens([], sep);
    }
  }

  /** Tokens of a concatenation split at a separator are the tokens of the parts. */
  lemma {:induction false} TokensAppend(a: string, c: char, b: string, sep: char -> bool)
    requires sep(c)
    ensures Tokens(a + [c] + b, sep) == Tokens(a, sep) + Tokens(b, sep)
    decreases |a|
  {
    var s := a + [c] + b;
    if a == [] {
      assert s[1..] == b;
    } else if sep(a[0]) {
      assert s[1..] == a[1..] + [c] + b;
      TokensAppend(a[1..], c, b, sep);
    } else {
      var n := RunLength(a, sep);
      RunLengthAppend(a, c, b, sep);
      assert s[..n] == a[..n];
      assert s[n..] == a[n..] + [c] + b;
      if n == |a| {
        assert a[n..] == [];
        assert s[n..] == [c] + b;
        assert s[n..][1..] == b;
      } else {
        TokensAppend(a[n..], c, b, sep);
      }
    }
  }

  lemma {:induction false} RunLengthAppend(a: string, c: char, b: string, sep: char -> bool)
    requires sep(c)
    ensures RunLength(a + [c] + b, sep) == RunLength(a, sep)
    decreases |a|
  {
    if a != [] && !sep(a[0]) {
      assert (a + [c] + b)[1..] == a[1..] + [c] + b;
      RunLengthAppend(a[1..], c, b, sep);
    }
  }

  /** `str.split()`: the whitespace-separated words. */
  function SplitWhitespace(s: string): seq<string> { Tokens(s, IsSpace) }

  /** Value of a non-empty run of decimal digits, as `int(...)` reads it. */
  function DecimalValue(ds: string): nat
    requires AllDigits(ds)
  {
    if ds == [] then 0 else 10 * DecimalValue(ds[..|ds| - 1]) + (ds[|ds| - 1] as int - '0' as int)
  }

  function DigitChar(d: nat): char
    requires d < 10
  {
    ('0' as int + d) as char
  }

  /** `str(n)` for a natural number. */
  function NatToString(n: nat): (s: string)
    ensures s != [] && AllDigits(s)
  {
    if n < 10 then [DigitChar(n)] else NatToString(n / 10) + [DigitChar(n % 10)]
  }

  /** `str(i)` for any integer: a minus sign before the digits of a negative. */
  function IntToString(i: int): (s: string)
    ensures s != []
  {
    if i < 0 then "-" + NatToString(-i) else NatToString(i)
  }

  /** Reading back what `str` wrote gives the number again. */
  lemma {:induction false} DecimalRoundTrip(n: nat)
    ensures DecimalValue(NatToString(n)) == n
  {
    if n >= 10 {
      var s := NatToString(n);
      assert s[..|s| - 1] == NatToString(n / 10);
      DecimalRoundTrip(n / 10);
    }
  }

  /** `int(s)` for an optional minus sign followed by decimal digits; `None` for anything else. */
  function ReadInt(s: string): Option<int>
  {
    if |s| >= 2 && s[0] == '-' && AllDigits(s[1..]) then Some(-(DecimalValue(s[1..]) as int))
    else if s != [] && AllDigits(s) then Some(DecimalValue(s))
    else None
  }

  /** Reading back what `str` wrote for any integer gives the integer again; the text never starts with '#'. */
  lemma IntRoundTrip(i: int)
    ensures ReadInt(IntToString(i)) == Some(i)
    ensures IntToString(i)[0] != '#'
  {
    if i < 0 {
      var s := IntToString(i);
      assert s[1..] == NatToString(-i);
      DecimalRoundTrip(-i);
    } else {
      DecimalRoundTrip(i);
      assert IsDigit(NatToString(i)[0]);
    }
  }

  /** The non-overlapping, left-to-right occurrences of `pat` replaced by `rep` (`str.replace`). */
  function ReplaceAll(s: string, pat: string, rep: string): string
    requires pat != []
    decreases |s|
  {
    if |s| < |pat| then s
    else if s[..|pat|] == pat then rep + ReplaceAll(s[|pat|..], pat, rep)
    else [s[0]] + ReplaceAll(s[1..], pat, rep)
  }

  /** `str.replace(c, '')` for a single character: every `c` removed. */
  function RemoveChar(s: string, c: char): (r: string)
    ensures c !in r
    ensures forall x :: x in r ==> x in s
  {
    if s == [] then [] else (if s[0] == c then [] else [s[0]]) + RemoveChar(s[1..], c)
  }

  /**
   * Whether a regular-expression `\b` holds at position `i`: exactly one of
   * the characters on either side is a word character (outside the string
   * counts as a non-word character).
   */
  predicate Boundary(s: string, i: int)
    requires 0 <= i <= |s|
  {
    (i > 0 && IsWordChar(s[i - 1])) != (i < |s| && IsWordChar(s[i]))
  }

  /** `str.split(c)` for one character: the pieces between the occurrences of `c`, empty ones included. */
  function SplitOn(s: string, c: char): (parts: seq<string>)
    ensures |parts| >= 1
    ensures forall p :: p in parts ==> c !in p
  {
    if s == [] then [[]]
    else if s[0] == c then [[]] + SplitOn(s[1..], c)
    else
      var rest := SplitOn(s[1..], c);
      [[s[0]] + rest[0]] + rest[1..]
  }

  /** `c.join(parts)`. */
  function JoinWith(parts: seq<string>, c: char): string
  {
    if parts == [] then []
    else if |parts| == 1 then parts[0]
    else parts[0] + [c] + JoinWith(parts[1..], c)
  }

  /** Joining the pieces of a split with the same character gives the string back. */
  lemma {:induction false} JoinSplit(s: string, c: char)
    ensures JoinWith(SplitOn(s, c), c) == s
  {
    if s != [] {
      var rest := SplitOn(s[1..], c);
      JoinSplit(s[1..], c);
      if s[0] == c {
        assert ([[]] + rest)[1..] == rest;
      } else {
        var parts := [[s[0]] + rest[0]] + rest[1..];
        assert parts[1..] == rest[1..];
        if |rest| > 1 {
          assert JoinWith(rest, c) == rest[0] + [c] + JoinWith(rest[1..], c);
        }
      }
    }
  }

  /** `str.find(c)`: the first index of `c`, or -1. */
  function Find(s: string, c: char): (i: int)
    ensures -1 <= i < |s|
    ensures i >= 0 ==> s[i] == c && forall k :: 0 <= k < i ==> s[k] != c
    ensures i == -1 <==> c !in s
  {
    if s == [] then -1
    else if s[0] == c then 0
    else
      var r := Find(s[1..], c);
      if r == -1 then -1 else r + 1
  }

  /** `str.rfind(c)`: the last index of `c`, or -1. */
  function RFind(s: string, c: char): (i: int)
    ensures -1 <= i < |s|
    ensures i >= 0 ==> s[i] == c && forall k :: i < k < |s| ==> s[k] != c
    ensures i == -1 <==> c !in s
  {
    if s == [] then -1
    else if s[|s| - 1] == c then |s| - 1
    else
      assert s == s[..|s| - 1] + [s[|s| - 1]];
      RFind(s[..|s| - 1], c)
  }
}
