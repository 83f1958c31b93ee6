/**
 * Cutting text at a byte limit without splitting a character. A string here is
 * a string of bytes; a byte above 255 does not occur in the well-formed ones.
 */
module Utf8 {

  /** A continuation byte, UTF8-tail in section 4 of RFC 3629. */
  predicate Tail(c: char)
  {
    0x80 <= c as int < 0xC0
  }

  /** utf8.RuneStart and utf8Start: every byte that is not a continuation byte. */
  predicate RuneStart(c: char)
  {
    !Tail(c)
  }

  predicate Between(c: char, lo: int, hi: int)
  {
    lo <= c as int <= hi
  }

  /** The length of the UTF8-char a string starts with (section 4 of RFC 3629), or 0. */
  function RuneLength(s: string): (k: nat)
    ensures k <= 4 && k <= |s|
  {
    if |s| >= 1 && Between(s[0], 0x00, 0x7F) then 1
    else if |s| >= 2 && Between(s[0], 0xC2, 0xDF) && Tail(s[1]) then 2
    else if |s| >= 3 && Tail(s[1]) && Tail(s[2])
         && (|| (Between(s[0], 0xE0, 0xE0) && Between(s[1], 0xA0, 0xBF))
             || Between(s[0], 0xE1, 0xEC)
             || (Between(s[0], 0xED, 0xED) && Between(s[1], 0x80, 0x9F))
             || Between(s[0], 0xEE, 0xEF)) then 3
    else if |s| >= 4 && Tail(s[1]) && Tail(s[2]) && Tail(s[3])
         && (|| (Between(s[0], 0xF0, 0xF0) && Between(s[1], 0x90, 0xBF))
             || Between(s[0], 0xF1, 0xF3)
             || (Between(s[0], 0xF4, 0xF4) && Between(s[1], 0x80, 0x8F))) then 4
    else 0
  }

  predicate WellFormed(s: string)
  {
    s == [] || (RuneLength(s) > 0 && WellFormed(s[RuneLength(s)..]))
  }

  /** A prefix of well-formed text is well formed exactly when it ends where a character does. */
  lemma {:induction false} Boundary(s: string, c: nat)
    requires WellFormed(s) && c <= |s|
    ensures WellFormed(s[..c]) <==> c == |s| || RuneStart(s[c])
    decreases |s|
  {
    if s != [] && c > 0 {
      var k := RuneLength(s);
      if c < k {
        assert RuneLength(s[..c]) == 0;
      } else {
        assert RuneLength(s[..c]) == k;
        assert s[..c][k..] == s[k..][..c - k];
        Boundary(s[k..], c - k);
      }
    }
  }

  /** No position in well-formed text is more than three bytes past the start of its character. */
  lemma {:induction false} StartNearby(s: string, c: nat) returns (j: nat)
    requires WellFormed(s) && c < |s|
    ensures j <= c <= j + 3 && RuneStart(s[j])
    decreases |s|
  {
    var k := RuneLength(s);
    if c < k {
      j := 0;
    } else {
      var i := StartNearby(s[k..], c - k);
      j := i + k;
    }
  }

  /** Where the loop stops that steps back from a cut until it stands on the start of a character. */
  function CutAt(s: string, cut: nat): (r: nat)
    requires cut < |s|
    ensures r <= cut
    ensures r == 0 || RuneStart(s[r])
    ensures forall j :: r < j <= cut ==> !RuneStart(s[j])
  {
    if cut > 0 && !RuneStart(s[cut]) then CutAt(s, cut - 1) else cut
  }

  /** CapText. */
  function Capped(s: string, limit: int): (string, bool)
  {
    if limit <= 0 || |s| <= limit then (s, false) else (s[..CutAt(s, limit)], true)
  }

  /** truncate. */
  function Truncated(s: string, n: nat): string
  {
    if |s| <= n then s else s[..CutAt(s, n)]
  }

  /**
   * On well-formed text CapText keeps the longest well-formed prefix within the limit, at most
   * three bytes short of it.
   */
  lemma CapIsLongestPrefix(s: string, limit: int)
    requires WellFormed(s) && limit > 0
    ensures
      var (out, cut) := Capped(s, limit);
      && out <= s && WellFormed(out) && |out| <= limit
      && (cut <==> |s| > limit)
      && (cut ==> limit - 3 <= |out|)
      && (forall j :: |out| < j <= limit && j <= |s| ==> !WellFormed(s[..j]))
  {
    if |s| > limit {
      var r := CutAt(s, limit);
      Boundary(s, r);
      assert r == 0 ==> RuneStart(s[0]);
      var start := StartNearby(s, limit);
      forall j | r < j <= limit ensures !WellFormed(s[..j]) {
        Boundary(s, j);
      }
    } else {
      assert s[..|s|] == s;
    }
  }

  /** Cutting what was cut changes nothing more. */
  lemma CapIdempotent(s: string, limit: int)
    ensures limit > 0 ==> Capped(Capped(s, limit).0, limit) == (Capped(s, limit).0, false)
    ensures limit <= 0 ==> Capped(s, limit) == (s, false)
  {
    if limit > 0 && |s| > limit {
      var r := CutAt(s, limit);
      assert |s[..r]| <= limit;
    }
  }

  /** truncate cuts where CapText does, except that a zero limit means nothing to it and no cap to CapText. */
  lemma TruncateAgrees(s: string, n: nat)
    ensures Truncated(s, n) == Capped(s, n).0 <==> n > 0 || s == []
  {
    if n == 0 && s != [] { assert |Truncated(s, 0)| == 0; }
  }

  method CapText(s: string, limit: int) returns (out: string, cut: bool)
    ensures (out, cut) == Capped(s, limit)
    ensures WellFormed(s) && limit > 0 ==> WellFormed(out) && |out| <= limit && (cut ==> limit - 3 <= |out|)
  {
    if limit > 0 && WellFormed(s) { CapIsLongestPrefix(s, limit); }
    if limit <= 0 || |s| <= limit { return s, false; }
    var at := limit;
    while at > 0 && !RuneStart(s[at])
      invariant 0 <= at <= limit
      invariant CutAt(s, limit) == CutAt(s, at)
    {
      at := at - 1;
    }
    return s[..at], true;
  }

  method Truncate(s: string, limit: nat) returns (out: string)
    ensures out == Truncated(s, limit)
  {
    if |s| <= limit { return s; }
    var n := limit;
    while n > 0 && !RuneStart(s[n])
      invariant 0 <= n <= limit
      invariant CutAt(s, limit) == CutAt(s, n)
    {
      n := n - 1;
    }
    return s[..n];
  }
}
