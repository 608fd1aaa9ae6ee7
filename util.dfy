/** StripCtlAndExtFromBytes: keeps only the printable ASCII bytes of a string. */
module Util {

  type Byte = b: int | 0 <= b < 256

  predicate IsPrintable(c: Byte)
  {
    32 <= c < 127
  }

  /** The printable bytes of s, in their original order. */
  function Printable(s: seq<Byte>): seq<Byte>
  {
    if |s| == 0 then []
    else Printable(s[..|s| - 1]) + (if IsPrintable(s[|s| - 1]) then [s[|s| - 1]] else [])
  }

  /**
   * The Go loop: a buffer as long as the input, filled from the front with
   * each printable byte; bl, the count written, never passes i, the count read.
   */
  method StripCtlAndExtFromBytes(str: seq<Byte>) returns (r: seq<Byte>)
    ensures r == Printable(str)
  {
    var b := new Byte[|str|];
    var bl := 0;
    for i := 0 to |str|
      invariant bl <= i
      invariant b[..bl] == Printable(str[..i])
    {
      var c := str[i];
      assert str[..i + 1][..i] == str[..i];
      if c >= 32 && c < 127 {
        b[bl] := c;
        bl := bl + 1;
      }
    }
    assert str[..|str|] == str;
    r := b[..bl];
  }

  lemma {:induction false} PrintableBytes(s: seq<Byte>)
    ensures |Printable(s)| <= |s|
    ensures forall k | 0 <= k < |Printable(s)| :: IsPrintable(Printable(s)[k])
  {
    if |s| > 0 {
      PrintableBytes(s[..|s| - 1]);
    }
  }

  /** Filtering distributes over concatenation: the order of the kept bytes is the input's. */
  lemma {:induction false} PrintableAppend(a: seq<Byte>, b: seq<Byte>)
    ensures Printable(a + b) == Printable(a) + Printable(b)
    decreases |b|
  {
    if |b| > 0 {
      var b' := b[..|b| - 1];
      assert (a + b)[..|a + b| - 1] == a + b';
      PrintableAppend(a, b');
    } else {
      assert a + b == a;
    }
  }

  /** An input of printable bytes only is returned unchanged. */
  lemma {:induction false} PrintableOfPrintable(s: seq<Byte>)
    requires forall k | 0 <= k < |s| :: IsPrintable(s[k])
    ensures Printable(s) == s
  {
    if |s| > 0 {
      PrintableOfPrintable(s[..|s| - 1]);
    }
  }

  /** Stripping twice is stripping once. */
  lemma PrintableIdempotent(s: seq<Byte>)
    ensures Printable(Printable(s)) == Printable(s)
  {
    PrintableBytes(s);
    PrintableOfPrintable(Printable(s));
  }
}
