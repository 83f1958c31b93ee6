/** How a server's free text reason becomes part of a file name and a counter key. */
module Reasons {

  predicate Word(c: char)
  {
    'a' <= c <= 'z' || '0' <= c <= '9'
  }

  function Lower(c: char): char
  {
    if 'A' <= c <= 'Z' then (c as int + 32) as char else c
  }

  const MAX_TAG: nat := 48

  /** One step of the loop of reasonTag: a word character, or one underscore for a run of others. */
  function Step(out: string, c: char): string
  {
    if Word(Lower(c)) then out + [Lower(c)]
    else if out != [] && out[|out| - 1] != '_' then out + "_"
    else out
  }

  /** The loop stops once the tag is as long as it may be. */
  function Scan(out: string, rest: string): string
    decreases |rest|
  {
    if rest == [] then out
    else
      var out' := Step(out, rest[0]);
      if |out'| >= MAX_TAG then out' else Scan(out', rest[1..])
  }

  function TrimUnderscores(s: string): string
  {
    if s != [] && s[|s| - 1] == '_' then TrimUnderscores(s[..|s| - 1]) else s
  }

  /** reasonTag. */
  function Tag(reason: string): string
  {
    var out := TrimUnderscores(Scan("", reason));
    if out == "" then "unspecified" else out
  }

  /** Words joined by single underscores. */
  ghost predicate Joined(s: string)
  {
    && (forall i :: 0 <= i < |s| ==> Word(s[i]) || s[i] == '_')
    && (s != [] ==> s[0] != '_')
    && (forall i :: 0 <= i < |s| - 1 ==> s[i] != '_' || s[i + 1] != '_')
  }

  /** What a tag looks like: short, words joined by single underscores, none at either end. */
  ghost predicate Canonical(s: string)
  {
    Joined(s) && 0 < |s| <= MAX_TAG && s[|s| - 1] != '_'
  }

  lemma {:induction false} ScanJoined(out: string, rest: string)
    requires Joined(out) && |out| < MAX_TAG
    ensures Joined(Scan(out, rest)) && |Scan(out, rest)| <= MAX_TAG
    decreases |rest|
  {
    if rest != [] {
      var out' := Step(out, rest[0]);
      assert Joined(out');
      if |out'| < MAX_TAG { ScanJoined(out', rest[1..]); }
    }
  }

  lemma {:induction false} TrimJoined(s: string)
    requires Joined(s)
    ensures var t := TrimUnderscores(s); Joined(t) && |t| <= |s| && (t == [] || t[|t| - 1] != '_')
  {
    if s != [] && s[|s| - 1] == '_' { TrimJoined(s[..|s| - 1]); }
  }

  /** Every reason yields a name that is safe in a file name: in particular it holds no dot. */
  lemma TagIsCanonical(reason: string)
    ensures Canonical(Tag(reason)) && '.' !in Tag(reason)
  {
    ScanJoined("", reason);
    TrimJoined(Scan("", reason));
  }

  lemma {:induction false} ScanKeepsCanonical(out: string, rest: string)
    requires Joined(out + rest) && |out + rest| <= MAX_TAG && (rest == [] || |out| < MAX_TAG)
    ensures Scan(out, rest) == out + rest
    decreases |rest|
  {
    if rest == [] {
      assert out + rest == out;
    } else {
      var s := out + rest;
      assert s[|out|] == rest[0] && (out != [] ==> s[|out| - 1] == out[|out| - 1]);
      assert out + [rest[0]] + rest[1..] == s;
      assert Step(out, rest[0]) == out + [rest[0]];
      if |out| + 1 < MAX_TAG {
        ScanKeepsCanonical(out + [rest[0]], rest[1..]);
      } else {
        assert rest[1..] == [];
      }
    }
  }

  /** A tag is its own tag, so redriving and refusing again cannot make it drift. */
  lemma TagIdempotent(reason: string)
    ensures Tag(Tag(reason)) == Tag(reason)
  {
    TagIsCanonical(reason);
    var t := Tag(reason);
    assert "" + t == t;
    ScanKeepsCanonical("", t);
  }

  /** The loop itself. */
  method ReasonTag(reason: string) returns (tag: string)
    ensures tag == Tag(reason)
  {
    var out := "";
    var i := 0;
    var full := false;
    assert reason[0..] == reason;
    while i < |reason| && !full
      invariant 0 <= i <= |reason|
      invariant Scan("", reason) == if full then out else Scan(out, reason[i..])
    {
      var c := Lower(reason[i]);
      assert reason[i..][1..] == reason[i + 1..];
      if Word(c) {
        out := out + [c];
      } else if out != [] && out[|out| - 1] != '_' {
        out := out + "_";
      }
      full := |out| >= MAX_TAG;
      i := i + 1;
    }
    while out != [] && out[|out| - 1] == '_'
      invariant TrimUnderscores(Scan("", reason)) == TrimUnderscores(out)
      decreases |out|
    {
      out := out[..|out| - 1];
    }
    tag := if out == "" then "unspecified" else out;
  }
}
