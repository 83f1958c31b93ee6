/** The redactor's case-folding gate, a search with two cursors, and the splice that replaces what a rule matched. */
module FoldSearch {

  function Lower(c: char): char
  {
    if 'A' <= c <= 'Z' then (c as int + 32) as char else c
  }

  function Upper(c: char): char
  {
    if 'a' <= c <= 'z' then (c as int - 32) as char else c
  }

  /** The needle occurs at i, letters of either case standing for each other. */
  predicate MatchAt(s: string, needle: string, i: nat)
  {
    i + |needle| <= |s| && forall k :: 0 <= k < |needle| ==> Lower(s[i + k]) == Lower(needle[k])
  }

  /** The naive definition. */
  ghost predicate Occurs(s: string, needle: string)
  {
    exists i :: MatchAt(s, needle, i)
  }

  /** next is the first place of c from from on, up to limit; -1 when there is none. */
  ghost predicate IsNext(s: string, c: char, from: nat, limit: int, next: int)
    requires limit < |s|
  {
    && (next < 0 ==> next == -1)
    && (next >= 0 ==> from <= next <= limit && s[next] == c)
    && forall i :: from <= i <= limit && (next < 0 || i < next) ==> s[i] != c
  }

  method IndexByteFrom(s: string, c: char, from: nat, limit: int) returns (next: int)
    requires limit < |s|
    ensures IsNext(s, c, from, limit, next)
  {
    if from > limit { return -1; }
    var j := from;
    while j <= limit
      invariant from <= j <= limit + 1
      invariant forall i :: from <= i < j ==> s[i] != c
    {
      if s[j] == c { return j; }
      j := j + 1;
    }
    return -1;
  }

  predicate FoldsTo(a: string, b: string)
  {
    |a| == |b| && forall k :: 0 <= k < |a| ==> Lower(a[k]) == Lower(b[k])
  }

  method EqualFold(a: string, b: string) returns (same: bool)
    ensures same == FoldsTo(a, b)
  {
    if |a| != |b| { return false; }
    for k := 0 to |a|
      invariant forall j :: 0 <= j < k ==> Lower(a[j]) == Lower(b[j])
    {
      if Lower(a[k]) != Lower(b[k]) { return false; }
    }
    return true;
  }

  /** A place where the needle occurs opens with its first letter in one case or the other. */
  lemma OpensInEitherCase(s: string, needle: string, i: nat)
    requires needle != [] && MatchAt(s, needle, i)
    ensures i <= |s| - |needle| && (s[i] == Lower(needle[0]) || s[i] == Upper(needle[0]))
  {
    assert Lower(s[i + 0]) == Lower(needle[0]);
  }

  method ContainsFold(s: string, needle: string) returns (found: bool)
    ensures found <==> Occurs(s, needle)
  {
    var n := |needle|;
    if n == 0 {
      assert MatchAt(s, needle, 0);
      return true;
    }
    if |s| < n { return false; }
    var limit := |s| - n;
    var lo, up := Lower(needle[0]), Upper(needle[0]);
    if lo == up {
      found := ScanOne(s, needle, lo, limit);
    } else {
      found := ScanTwo(s, needle, lo, up, limit);
    }
  }

  /** The needle's first byte has one case only: a single scan for it. */
  method ScanOne(s: string, needle: string, c: char, limit: nat) returns (found: bool)
    requires needle != [] && limit == |s| - |needle| && c == Lower(needle[0]) == Upper(needle[0])
    ensures found <==> Occurs(s, needle)
  {
    hide MatchAt, FoldsTo, Lower, Upper;
    var i := 0;
    while i <= limit
      invariant 0 <= i <= limit + 1
      invariant forall k :: 0 <= k < i ==> !MatchAt(s, needle, k)
    {
      var j := IndexByteFrom(s, c, i, limit);
      NoneSkipped(s, needle, i, j, limit);
      if j < 0 { return false; }
      var same := EqualFold(s[j..j + |needle|], needle);
      WindowDecides(s, needle, j);
      if same { return true; }
      i := j + 1;
    }
    NoneBeyond(s, needle, limit);
    return false;
  }

  lemma NoneSkipped(s: string, needle: string, i: nat, j: int, limit: nat)
    requires needle != [] && limit == |s| - |needle| && Lower(needle[0]) == Upper(needle[0])
    requires IsNext(s, Lower(needle[0]), i, limit, j)
    ensures forall k :: i <= k && (j < 0 || k < j) ==> !MatchAt(s, needle, k)
  {
    forall k | i <= k && (j < 0 || k < j) ensures !MatchAt(s, needle, k) {
      if MatchAt(s, needle, k) { OpensInEitherCase(s, needle, k); }
    }
  }

  lemma WindowDecides(s: string, needle: string, i: nat)
    requires i + |needle| <= |s|
    ensures FoldsTo(s[i..i + |needle|], needle) <==> MatchAt(s, needle, i)
  {
    if FoldsTo(s[i..i + |needle|], needle) {
      forall k | 0 <= k < |needle| ensures Lower(s[i + k]) == Lower(needle[k]) {
        assert s[i..i + |needle|][k] == s[i + k];
      }
    }
  }

  lemma NoneBeyond(s: string, needle: string, limit: nat)
    requires limit == |s| - |needle|
    ensures forall k :: k > limit ==> !MatchAt(s, needle, k)
  {
  }

  /** Two cursors, one for each case; only the one that was used moves on. */
  method ScanTwo(s: string, needle: string, lo: char, up: char, limit: nat) returns (found: bool)
    requires needle != [] && limit == |s| - |needle| && lo == Lower(needle[0]) && up == Upper(needle[0]) && lo != up
    ensures found <==> Occurs(s, needle)
  {
    hide MatchAt, FoldsTo, Lower, Upper;
    var nextLo := IndexByteFrom(s, lo, 0, limit);
    var nextUp := IndexByteFrom(s, up, 0, limit);
    ghost var done := 0;
    while true
      invariant 0 <= done <= limit + 1
      invariant IsNext(s, lo, done, limit, nextLo) && IsNext(s, up, done, limit, nextUp)
      invariant forall k :: 0 <= k < done ==> !MatchAt(s, needle, k)
      decreases limit + 1 - done
    {
      var i := nextLo;
      if i < 0 || (nextUp >= 0 && nextUp < i) { i := nextUp; }
      NoneBefore(s, needle, done, nextLo, nextUp, i, limit);
      if i < 0 { return false; }
      var same := EqualFold(s[i..i + |needle|], needle);
      WindowDecides(s, needle, i);
      if same { return true; }
      if nextLo == i { nextLo := IndexByteFrom(s, lo, i + 1, limit); }
      if nextUp == i { nextUp := IndexByteFrom(s, up, i + 1, limit); }
      done := i + 1;
    }
  }

  /** Nothing occurs before the nearer cursor. */
  lemma NoneBefore(s: string, needle: string, done: nat, nextLo: int, nextUp: int, i: int, limit: nat)
    requires needle != [] && limit == |s| - |needle|
    requires IsNext(s, Lower(needle[0]), done, limit, nextLo) && IsNext(s, Upper(needle[0]), done, limit, nextUp)
    requires i == if nextLo < 0 || (nextUp >= 0 && nextUp < nextLo) then nextUp else nextLo
    ensures forall k :: done <= k && (i < 0 || k < i) ==> !MatchAt(s, needle, k)
  {
    forall k | done <= k && (i < 0 || k < i) ensures !MatchAt(s, needle, k) {
      if MatchAt(s, needle, k) { OpensInEitherCase(s, needle, k); }
    }
  }

  // -------------------------------------------------------------------- apply

  /** One match of a rule: where, whether the rule vouches for it, and what replaces it. */
  datatype Match = Match(from: nat, to: nat, accepted: bool, text: string)

  /** Matches in order, none overlapping the next. */
  ghost predicate Ordered(s: string, ms: seq<Match>)
  {
    && (forall i :: 0 <= i < |ms| ==> ms[i].from <= ms[i].to <= |s|)
    && (forall i, j :: 0 <= i < j < |ms| ==> ms[i].to <= ms[j].from)
  }

  /** s from last on, with the accepted matches replaced and every other byte as it was. */
  ghost function Spliced(s: string, last: nat, ms: seq<Match>): string
    requires last <= |s| && Ordered(s, ms) && (forall i :: 0 <= i < |ms| ==> last <= ms[i].from)
    decreases |ms|
  {
    if ms == [] then s[last..]
    else if !ms[0].accepted then Spliced(s, last, ms[1..])
    else s[last..ms[0].from] + ms[0].text + Spliced(s, ms[0].to, ms[1..])
  }

  ghost function Hits(ms: seq<Match>): nat
  {
    if ms == [] then 0 else Hits(ms[1..]) + if ms[0].accepted then 1 else 0
  }

  method Apply(s: string, ms: seq<Match>) returns (out: string, hits: nat)
    requires Ordered(s, ms)
    ensures out == Spliced(s, 0, ms) && hits == Hits(ms)
    ensures hits == 0 ==> out == s
  {
    if ms == [] { return s, 0; }
    var b := "";
    var last := 0;
    hits := 0;
    assert ms[0..] == ms;
    for i := 0 to |ms|
      invariant 0 <= last <= |s| && forall j :: i <= j < |ms| ==> last <= ms[j].from
      invariant Ordered(s, ms[i..])
      invariant b + Spliced(s, last, ms[i..]) == Spliced(s, 0, ms)
      invariant hits + Hits(ms[i..]) == Hits(ms)
      invariant hits == 0 ==> b == "" && last == 0
    {
      OrderedTail(s, ms, i);
      assert ms[i..][1..] == ms[i + 1..];
      if !ms[i].accepted { continue; }
      b := b + s[last..ms[i].from];
      b := b + ms[i].text;
      last := ms[i].to;
      hits := hits + 1;
    }
    if hits == 0 { return s, 0; }
    out := b + s[last..];
  }

  lemma OrderedTail(s: string, ms: seq<Match>, i: nat)
    requires Ordered(s, ms) && i < |ms|
    ensures Ordered(s, ms[i..]) && Ordered(s, ms[i + 1..])
  {
  }

  ghost function Removed(ms: seq<Match>): int
  {
    if ms == [] then 0 else Removed(ms[1..]) + if ms[0].accepted then ms[0].to - ms[0].from - |ms[0].text| else 0
  }

  /** Nothing else is lost or added: the text shrinks by what was matched and accepted, less what replaced it. */
  lemma {:induction false} SpliceAccounts(s: string, last: nat, ms: seq<Match>)
    requires last <= |s| && Ordered(s, ms) && (forall i :: 0 <= i < |ms| ==> last <= ms[i].from)
    ensures |Spliced(s, last, ms)| == |s| - last - Removed(ms)
    decreases |ms|
  {
    if ms != [] {
      OrderedTail(s, ms, 0);
      SpliceAccounts(s, if ms[0].accepted then ms[0].to else last, ms[1..]);
    }
  }
}
