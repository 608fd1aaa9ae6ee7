/**
 * The query extractor: the regular expression `auth_token=([^&]{20})`, found
 * with FindAllStringSubmatch and read in a loop that overwrites the token with
 * each capture, so the capture of the last match wins. Go's regexp reports
 * leftmost, non-overlapping matches; since every match is exactly 31
 * characters long, that is a left-to-right scan which, after a match at i,
 * resumes at i + 31.
 */
module AuthToken {
  import opened Wrappers

  const Key := "auth_token="
  const TokenLength := 20
  /** Length of one whole match: the key and the captured token. */
  const MatchLength := 31

  /** The pattern matches at position i of q. */
  predicate IsMatchAt(q: string, i: int)
  {
    && 0 <= i && i + MatchLength <= |q|
    && q[i..i + |Key|] == Key
    && '&' !in q[i + |Key|..i + MatchLength]
  }

  /** The capture group of a match at position i. */
  function Capture(q: string, i: nat): string
    requires i + MatchLength <= |q|
  {
    q[i + |Key|..i + MatchLength]
  }

  /** The leftmost match at or after position from, if there is one. */
  function NextMatch(q: string, from: nat): (r: Option<nat>)
    ensures r.Some? ==> from <= r.value && IsMatchAt(q, r.value)
    ensures r.Some? ==> forall j | from <= j < r.value :: !IsMatchAt(q, j)
    ensures r.None? ==> forall j | from <= j :: !IsMatchAt(q, j)
    decreases |q| - from
  {
    if from + MatchLength > |q| then None
    else if IsMatchAt(q, from) then Some(from)
    else NextMatch(q, from + 1)
  }

  /**
   * The start positions of the matches FindAllStringSubmatch reports from
   * position from on: the leftmost match, then the leftmost one at or after its
   * end, and so on. The positions are matches, increasing and non-overlapping.
   */
  function Matches(q: string, from: nat): (m: seq<nat>)
    ensures forall k | 0 <= k < |m| :: from <= m[k] && IsMatchAt(q, m[k])
    ensures forall k | 0 <= k < |m| - 1 :: m[k] + MatchLength <= m[k + 1]
    decreases |q| - from
  {
    match NextMatch(q, from)
    case None => []
    case Some(i) => [i] + Matches(q, i + MatchLength)
  }

  /** Every match the list leaves out overlaps one it holds: the list is leftmost. */
  lemma {:induction false} MatchesCover(q: string, from: nat, j: nat)
    requires from <= j && IsMatchAt(q, j)
    ensures exists k | 0 <= k < |Matches(q, from)| :: Matches(q, from)[k] <= j < Matches(q, from)[k] + MatchLength
    decreases |q| - from
  {
    var m := Matches(q, from);
    var i := NextMatch(q, from).value;
    if j < i + MatchLength {
      assert m[0] <= j < m[0] + MatchLength;
    } else {
      var rest := Matches(q, i + MatchLength);
      MatchesCover(q, i + MatchLength, j);
      var k :| 0 <= k < |rest| && rest[k] <= j < rest[k] + MatchLength;
      assert m[k + 1] == rest[k];
    }
  }

  /** No match is reported exactly when the pattern matches nowhere from position from on. */
  lemma MatchesEmpty(q: string, from: nat)
    ensures |Matches(q, from)| == 0 <==> forall j | from <= j :: !IsMatchAt(q, j)
  {
    if |Matches(q, from)| == 0 {
      forall j | from <= j && IsMatchAt(q, j)
        ensures false
      {
        MatchesCover(q, from, j);
      }
    }
  }

  /**
   * The token held after scanning q from position from onwards, when token
   * was held before: every match found overwrites it.
   */
  function ScanToken(q: string, from: nat, token: string): (t: string)
    ensures t == token || (|t| == TokenLength && '&' !in t)
    decreases |q| - from
  {
    if from + MatchLength > |q| then token
    else if IsMatchAt(q, from) then ScanToken(q, from + MatchLength, Capture(q, from))
    else ScanToken(q, from + 1, token)
  }

  /** With no match from `from` on, the token is left as it was. */
  lemma {:induction false} NoMatchKeepsToken(q: string, from: nat, token: string)
    requires forall j | from <= j :: !IsMatchAt(q, j)
    ensures ScanToken(q, from, token) == token
    decreases |q| - from
  {
    if from + MatchLength <= |q| {
      NoMatchKeepsToken(q, from + 1, token);
    }
  }

  /** A match at from is reported first, and the rest are reported from its end. */
  lemma MatchesFromMatch(q: string, from: nat)
    requires IsMatchAt(q, from)
    ensures Matches(q, from) == [from] + Matches(q, from + MatchLength)
  {
    assert NextMatch(q, from) == Some(from);
  }

  /** A position where the pattern does not match adds nothing to the list. */
  lemma MatchesPastMiss(q: string, from: nat)
    requires from + MatchLength <= |q| && !IsMatchAt(q, from)
    ensures Matches(q, from) == Matches(q, from + 1)
  {
    assert NextMatch(q, from) == NextMatch(q, from + 1);
  }

  /** The scan leaves the capture of the last match reported, or token when there is none. */
  lemma {:induction false} LastMatchWins(q: string, from: nat, token: string)
    ensures var m := Matches(q, from);
      ScanToken(q, from, token) == if |m| == 0 then token else Capture(q, m[|m| - 1])
    decreases |q| - from
  {
    if from + MatchLength > |q| {
      assert Matches(q, from) == [];
    } else if IsMatchAt(q, from) {
      MatchesFromMatch(q, from);
      LastMatchWins(q, from + MatchLength, Capture(q, from));
    } else {
      MatchesPastMiss(q, from);
      LastMatchWins(q, from + 1, token);
    }
  }

  /** The token extracted from a query into a freshly created record. */
  function Token(q: string): (t: string)
    ensures t == "" <==> forall j :: !IsMatchAt(q, j)
    ensures t != "" ==> |t| == TokenLength && '&' !in t
    ensures t != "" ==> |Matches(q, 0)| > 0 && t == Capture(q, Matches(q, 0)[|Matches(q, 0)| - 1])
  {
    LastMatchWins(q, 0, "");
    MatchesEmpty(q, 0);
    ScanToken(q, 0, "")
  }

  /**
   * Overlapping matches: after "auth_token=auth_token=" the pattern matches at
   * 0 and again at 11, and the leftmost, non-overlapping scan keeps the first.
   */
  lemma OverlappingMatchFirstWins(x: string)
    requires |x| == TokenLength && '&' !in x
    ensures var q := Key + Key + x;
      && IsMatchAt(q, 0) && IsMatchAt(q, |Key|)
      && Matches(q, 0) == [0]
      && Token(q) == Capture(q, 0)
  {
    var q := Key + Key + x;
    assert |q| == MatchLength + |Key|;
    assert q[..|Key|] == Key;
    assert q[|Key|..MatchLength] == Key + x[..TokenLength - |Key|];
    assert q[|Key|..2 * |Key|] == Key;
    assert q[2 * |Key|..|q|] == x;
    assert IsMatchAt(q, 0);
    assert NextMatch(q, 0) == Some(0);
    assert NextMatch(q, MatchLength) == None;
    assert Matches(q, 0) == [0];
    LastMatchWins(q, 0, "");
  }

  /** Two tokens in one query: the second one is extracted. */
  lemma SecondTokenWins(t1: string, t2: string)
    requires |t1| == TokenLength && |t2| == TokenLength && '&' !in t1 && '&' !in t2
    ensures Token(Key + t1 + "&" + Key + t2) == t2
  {
    var q := Key + t1 + "&" + Key + t2;
    var second := MatchLength + 1;
    assert |q| == 2 * MatchLength + 1;
    assert IsMatchAt(q, 0) by {
      assert q[..|Key|] == Key;
      assert q[|Key|..MatchLength] == t1;
      assert forall j | |Key| <= j < MatchLength :: q[j] == t1[j - |Key|];
    }
    assert !IsMatchAt(q, MatchLength) by {
      assert q[MatchLength] == '&';
    }
    assert IsMatchAt(q, second) by {
      assert q[second..second + |Key|] == Key;
      assert forall j | second + |Key| <= j < |q| :: q[j] == t2[j - second - |Key|];
    }
    assert Capture(q, second) == t2;
    calc {
      ScanToken(q, 0, "");
      ScanToken(q, MatchLength, Capture(q, 0));
      ScanToken(q, second, Capture(q, 0));
      ScanToken(q, second + MatchLength, t2);
      t2;
    }
  }
}
