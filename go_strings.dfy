/**
 * Models of the Go standard-library string functions the audit engine uses:
 * strconv.Atoi (and strconv.Itoa as its inverse), strings.Split and
 * strings.Join, strings.HasPrefix, strings.TrimSuffix, strings.Index, and
 * strings.EqualFold restricted to ASCII letters.
 */
module GoStrings {
  import opened Wrappers

  const MinInt64: int := -0x8000_0000_0000_0000
  const MaxInt64: int := 0x7FFF_FFFF_FFFF_FFFF

  predicate InInt64(n: int) { MinInt64 <= n <= MaxInt64 }

  // ---------------------------------------------------------------------
  // strconv.Atoi / strconv.Itoa

  predicate IsDigit(c: char) { '0' <= c <= '9' }

  predicate AllDigits(s: string) { forall i | 0 <= i < |s| :: IsDigit(s[i]) }

  predicate IsSign(c: char) { c == '+' || c == '-' }

  /** The syntax strconv.Atoi accepts: an optional sign, then one or more ASCII digits. */
  predicate IsNumeral(s: string)
  {
    if |s| > 0 && IsSign(s[0]) then |s| > 1 && AllDigits(s[1..])
    else |s| > 0 && AllDigits(s)
  }

  function Pow10(n: nat): (p: nat)
    ensures p >= 1
  {
    if n == 0 then 1 else 10 * Pow10(n - 1)
  }

  /** The value of a string of decimal digits, most significant first. */
  function DigitsValue(ds: string): (v: nat)
    requires AllDigits(ds)
    ensures v < Pow10(|ds|)
  {
    if |ds| == 0 then 0
    else DigitsValue(ds[..|ds| - 1]) * 10 + (ds[|ds| - 1] as int - '0' as int)
  }

  lemma {:induction false} Pow10Monotone(m: nat, n: nat)
    requires m <= n
    ensures Pow10(m) <= Pow10(n)
  {
    if m < n {
      Pow10Monotone(m, n - 1);
    }
  }

  lemma Pow10Thousandfold(n: nat)
    ensures Pow10(n + 3) == 1000 * Pow10(n)
  {
    assert Pow10(n + 3) == 10 * Pow10(n + 2);
    assert Pow10(n + 2) == 10 * Pow10(n + 1);
  }

  /** Up to 18 digits always fit in an int64, whatever the sign. */
  lemma DigitsFitInt64(ds: string)
    requires AllDigits(ds)
    ensures |ds| <= 18 ==> DigitsValue(ds) < MaxInt64
  {
    if |ds| <= 18 {
      Pow10Monotone(|ds|, 18);
      Pow10Thousandfold(0);
      Pow10Thousandfold(3);
      Pow10Thousandfold(6);
      Pow10Thousandfold(9);
      Pow10Thousandfold(12);
      Pow10Thousandfold(15);
      assert Pow10(18) == 1_000_000_000_000_000_000;
    }
  }

  /**
   * The value of a string of decimal digits as a positional sum: the first
   * digit times ten to the number of digits after it, plus the rest.
   */
  function PositionalValue(ds: string): int
    requires AllDigits(ds)
  {
    if |ds| == 0 then 0
    else (ds[0] as int - '0' as int) * Pow10(|ds| - 1) + PositionalValue(ds[1..])
  }

  /** The value a numeral denotes: its digits' positional value, negated after a '-'. */
  function NumeralValue(s: string): int
    requires IsNumeral(s)
  {
    if IsSign(s[0]) then
      if s[0] == '-' then -PositionalValue(s[1..]) else PositionalValue(s[1..])
    else PositionalValue(s)
  }

  /** Appending a digit multiplies the positional value by ten and adds the digit. */
  lemma {:induction false} PositionalSnoc(ds: string)
    requires AllDigits(ds) && |ds| >= 1
    ensures PositionalValue(ds) == PositionalValue(ds[..|ds| - 1]) * 10 + (ds[|ds| - 1] as int - '0' as int)
  {
    var n := |ds|;
    if n >= 2 {
      var init := ds[..n - 1];
      var d0 := ds[0] as int - '0' as int;
      PositionalSnoc(ds[1..]);
      assert ds[1..][..n - 2] == init[1..];
      assert Pow10(n - 1) == 10 * Pow10(n - 2);
      assert d0 * Pow10(n - 2) * 10 == d0 * Pow10(n - 1);
    }
  }

  /** The positional sum and the digit-by-digit accumulation agree. */
  lemma {:induction false} PositionalIsDigitsValue(ds: string)
    requires AllDigits(ds)
    ensures PositionalValue(ds) == DigitsValue(ds)
  {
    if |ds| > 0 {
      PositionalSnoc(ds);
      PositionalIsDigitsValue(ds[..|ds| - 1]);
    }
  }

  /**
   * strconv.Atoi on a 64-bit platform: an optional '+' or '-' followed by at
   * least one ASCII digit, whose value lies in the int64 range. Anything else,
   * including "" and a lone sign, is an error (None).
   */
  function Atoi(s: string): (r: Option<int>)
    ensures r.Some? <==> IsNumeral(s) && InInt64(NumeralValue(s))
    ensures r.Some? ==> r.value == NumeralValue(s)
    ensures IsNumeral(s) && |s| <= 18 ==> r.Some?
  {
    if |s| == 0 then None
    else if IsSign(s[0]) then
      var ds := s[1..];
      if |ds| == 0 || !AllDigits(ds) then None
      else
        DigitsFitInt64(ds);
        PositionalIsDigitsValue(ds);
        var v: int := if s[0] == '-' then -(DigitsValue(ds) as int) else DigitsValue(ds);
        if InInt64(v) then Some(v) else None
    else if !AllDigits(s) then None
    else
      DigitsFitInt64(s);
      PositionalIsDigitsValue(s);
      var v := DigitsValue(s);
      if InInt64(v) then Some(v) else None
  }

  function DigitChar(d: nat): (c: char)
    requires d < 10
    ensures IsDigit(c) && c as int - '0' as int == d
  {
    ('0' as int + d) as char
  }

  /** The decimal digits of k without leading zeros ("0" for zero). */
  function NatDigits(k: nat): (ds: string)
    ensures |ds| >= 1 && AllDigits(ds)
  {
    if k < 10 then [DigitChar(k)] else NatDigits(k / 10) + [DigitChar(k % 10)]
  }

  /** strconv.Itoa: the decimal rendering of n, with '-' for negative numbers. */
  function Itoa(n: int): (s: string)
    ensures IsNumeral(s)
  {
    if n < 0 then "-" + NatDigits(-n) else NatDigits(n)
  }

  lemma {:induction false} NatDigitsValue(k: nat)
    ensures DigitsValue(NatDigits(k)) == k
  {
    if k >= 10 {
      var p := NatDigits(k / 10);
      var ds := NatDigits(k);
      assert ds == p + [DigitChar(k % 10)];
      assert ds[..|ds| - 1] == p;
      NatDigitsValue(k / 10);
    }
  }

  /** Atoi is a left inverse of Itoa on the int64 range. */
  lemma AtoiItoa(n: int)
    requires InInt64(n)
    ensures Atoi(Itoa(n)) == Some(n)
  {
    if n < 0 {
      NatDigitsValue(-n);
      assert Itoa(n)[1..] == NatDigits(-n);
    } else {
      NatDigitsValue(n);
    }
  }

  // ---------------------------------------------------------------------
  // strings.Split / strings.Join

  /** Number of occurrences of c in s. */
  function Count(s: string, c: char): nat
  {
    if |s| == 0 then 0 else (if s[0] == c then 1 else 0) + Count(s[1..], c)
  }

  /** strings.Join(parts, string(sep)). */
  function Join(parts: seq<string>, sep: char): string
  {
    if |parts| == 0 then ""
    else if |parts| == 1 then parts[0]
    else parts[0] + [sep] + Join(parts[1..], sep)
  }

  /**
   * strings.Split(s, string(sep)): the pieces of s between separators. There
   * is always at least one piece, one more than there are separators, so
   * Split("", sep) == [""].
   */
  function Split(s: string, sep: char): (parts: seq<string>)
    ensures |parts| == Count(s, sep) + 1
    ensures forall k | 0 <= k < |parts| :: sep !in parts[k]
    ensures Join(parts, sep) == s
  {
    if |s| == 0 then [""]
    else
      var rest := Split(s[1..], sep);
      if s[0] == sep then
        assert Join([""] + rest, sep) == [sep] + Join(rest, sep) by {
          assert ([""] + rest)[1..] == rest;
        }
        [""] + rest
      else
        var parts := [[s[0]] + rest[0]] + rest[1..];
        assert Join(parts, sep) == [s[0]] + Join(rest, sep) by {
          if |rest| > 1 {
            assert parts[1..] == rest[1..];
          }
        }
        parts
  }

  lemma {:induction false} SplitNoSeparator(s: string, sep: char)
    requires sep !in s
    ensures Split(s, sep) == [s]
  {
    if |s| > 0 {
      SplitNoSeparator(s[1..], sep);
    }
  }

  lemma {:induction false} SplitAfterPiece(p: string, sep: char, rest: string)
    requires sep !in p
    ensures Split(p + [sep] + rest, sep) == [p] + Split(rest, sep)
  {
    if |p| == 0 {
      assert p + [sep] + rest == [sep] + rest;
      assert ([sep] + rest)[1..] == rest;
    } else {
      SplitAfterPiece(p[1..], sep, rest);
      var whole := p + [sep] + rest;
      assert whole[0] == p[0] && whole[0] != sep;
      assert whole[1..] == p[1..] + [sep] + rest;
      var tail := Split(whole[1..], sep);
      assert tail == [p[1..]] + Split(rest, sep);
      assert [p[0]] + tail[0] == p;
      assert tail[1..] == Split(rest, sep);
    }
  }

  /** Splitting a joined list of separator-free pieces gives the pieces back. */
  lemma {:induction false} SplitJoin(parts: seq<string>, sep: char)
    requires |parts| >= 1
    requires forall k | 0 <= k < |parts| :: sep !in parts[k]
    ensures Split(Join(parts, sep), sep) == parts
  {
    if |parts| == 1 {
      SplitNoSeparator(parts[0], sep);
    } else {
      SplitJoin(parts[1..], sep);
      SplitAfterPiece(parts[0], sep, Join(parts[1..], sep));
      assert [parts[0]] + parts[1..] == parts;
    }
  }

  // ---------------------------------------------------------------------
  // strings.HasPrefix / strings.TrimSuffix / strings.Index

  /** strings.HasPrefix. */
  predicate HasPrefix(s: string, prefix: string)
    ensures HasPrefix(s, prefix) <==> |prefix| <= |s| && forall i | 0 <= i < |prefix| :: s[i] == prefix[i]
    ensures HasPrefix(s, prefix) ==> s == prefix + s[|prefix|..]
  {
    |prefix| <= |s| && s[..|prefix|] == prefix
  }

  predicate HasSuffix(s: string, suffix: string)
  {
    |suffix| <= |s| && s[|s| - |suffix|..] == suffix
  }

  /** strings.TrimSuffix: removes one copy of suffix from the end of s, if present. */
  function TrimSuffix(s: string, suffix: string): (r: string)
    ensures HasSuffix(s, suffix) ==> r + suffix == s
    ensures !HasSuffix(s, suffix) ==> r == s
  {
    if HasSuffix(s, suffix) then s[..|s| - |suffix|] else s
  }

  predicate OccursAt(s: string, pattern: string, i: int)
  {
    0 <= i && i + |pattern| <= |s| && s[i..i + |pattern|] == pattern
  }

  function IndexFrom(s: string, pattern: string, from: nat): (r: int)
    ensures r == -1 || (from <= r && OccursAt(s, pattern, r))
    ensures r == -1 ==> forall i | from <= i :: !OccursAt(s, pattern, i)
    ensures r >= 0 ==> forall i | from <= i < r :: !OccursAt(s, pattern, i)
    decreases |s| - from
  {
    if from + |pattern| > |s| then -1
    else if s[from..from + |pattern|] == pattern then from
    else IndexFrom(s, pattern, from + 1)
  }

  /** strings.Index: the first position where pattern occurs in s, or -1. */
  function Index(s: string, pattern: string): (r: int)
    ensures r == -1 <==> forall i :: !OccursAt(s, pattern, i)
    ensures r != -1 ==> OccursAt(s, pattern, r) && forall i | 0 <= i < r :: !OccursAt(s, pattern, i)
  {
    IndexFrom(s, pattern, 0)
  }

  // ---------------------------------------------------------------------
  // strings.EqualFold, ASCII only

  function LowerChar(c: char): char
  {
    if 'A' <= c <= 'Z' then (c as int - 'A' as int + 'a' as int) as char else c
  }

  function ToLower(s: string): (r: string)
    ensures |r| == |s| && forall i | 0 <= i < |s| :: r[i] == LowerChar(s[i])
  {
    seq(|s|, i requires 0 <= i < |s| => LowerChar(s[i]))
  }

  /** s has no ASCII upper-case letter. */
  predicate IsLowerCase(s: string)
  {
    forall i | 0 <= i < |s| :: !('A' <= s[i] <= 'Z')
  }

  /** strings.EqualFold, with case folding restricted to the ASCII letters. */
  predicate EqualFold(a: string, b: string)
    ensures EqualFold(a, b) <==> ToLower(a) == ToLower(b)
  {
    |a| == |b| && forall i | 0 <= i < |a| :: LowerChar(a[i]) == LowerChar(b[i])
  }

  /** Comparing against a lower-case word ignoring case is comparing the lowered string. */
  lemma EqualFoldLower(a: string, b: string)
    requires IsLowerCase(b)
    ensures EqualFold(a, b) <==> ToLower(a) == b
  {
    if ToLower(a) == b {
      assert forall i | 0 <= i < |a| :: LowerChar(a[i]) == ToLower(a)[i];
    }
  }
}
