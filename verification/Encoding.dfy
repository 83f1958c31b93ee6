/** The texts that are hashed into cursor fingerprints and event ids, and why no two inputs share one. */
module Encoding {
  import opened Events
  import opened Names

  // ---------------------------------------------------------------- scopeOf

  /** One part, prefixed with its length and a colon. */
  function Prefixed(part: string): string
  {
    Decimal(|part|) + ":" + part
  }

  /** The text scopeOf hashes. */
  function ScopeText(parts: seq<string>): string
  {
    if parts == [] then "" else Prefixed(parts[0]) + ScopeText(parts[1..])
  }

  lemma DecimalHasNo(n: nat, c: char)
    requires !('0' <= c <= '9')
    ensures c !in Decimal(n)
  {
    assert Digits(Decimal(n));
  }

  lemma DecimalInjective(m: nat, n: nat)
    requires Decimal(m) == Decimal(n)
    ensures m == n
  {
    ValueOfDecimal(m);
    ValueOfDecimal(n);
  }

  /** Cutting two equal texts at the first separator gives equal heads and equal rests. */
  lemma SplitAtFirst(head: string, rest: string, head': string, rest': string, sep: char)
    requires sep !in head && sep !in head'
    requires head + [sep] + rest == head' + [sep] + rest'
    ensures head == head' && rest == rest'
  {
    var s := head + [sep] + rest;
    assert s == head + ([sep] + rest) && s == head' + ([sep] + rest');
    UpToAppend(head, [sep] + rest, sep);
    UpToAppend(head', [sep] + rest', sep);
    assert UpTo([sep] + rest, sep) == [] && UpTo([sep] + rest', sep) == [];
    assert head == UpTo(s, sep) == head';
    assert rest == s[|head| + 1..] == rest';
  }

  lemma PrefixedSplits(p: string, rest: string, q: string, rest': string)
    requires Prefixed(p) + rest == Prefixed(q) + rest'
    ensures p == q && rest == rest'
  {
    DecimalHasNo(|p|, ':');
    DecimalHasNo(|q|, ':');
    assert Prefixed(p) + rest == Decimal(|p|) + [':'] + (p + rest);
    assert Prefixed(q) + rest' == Decimal(|q|) + [':'] + (q + rest');
    SplitAtFirst(Decimal(|p|), p + rest, Decimal(|q|), q + rest', ':');
    DecimalInjective(|p|, |q|);
    assert p == (p + rest)[..|p|] && rest == (p + rest)[|p|..];
    assert q == (q + rest')[..|q|] && rest' == (q + rest')[|q|..];
  }

  lemma EmptyScopeText(parts: seq<string>)
    ensures ScopeText(parts) == "" <==> parts == []
  {
    if parts != [] { assert |Prefixed(parts[0])| > 0; }
  }

  /** Two sequences of parts with the same hashed text are the same sequence. */
  lemma {:induction false} ScopeTextInjective(a: seq<string>, b: seq<string>)
    requires ScopeText(a) == ScopeText(b)
    ensures a == b
  {
    if a == [] || b == [] {
      EmptyScopeText(a);
      EmptyScopeText(b);
    } else {
      PrefixedSplits(a[0], ScopeText(a[1..]), b[0], ScopeText(b[1..]));
      ScopeTextInjective(a[1..], b[1..]);
      assert a == [a[0]] + a[1..] && b == [b[0]] + b[1..];
    }
  }

  lemma ScopeTextStep(parts: seq<string>, i: nat)
    requires i < |parts|
    ensures ScopeText(parts[i..]) == Decimal(|parts[i]|) + ":" + parts[i] + ScopeText(parts[i + 1..])
  {
    assert parts[i..][1..] == parts[i + 1..];
  }

  method WriteScope(parts: seq<string>) returns (text: string)
    ensures text == ScopeText(parts)
  {
    hide Decimal, ScopeText;
    text := "";
    assert parts[0..] == parts;
    for i := 0 to |parts|
      invariant text + ScopeText(parts[i..]) == ScopeText(parts)
    {
      ghost var before := text;
      text := text + Decimal(|parts[i]|);
      text := text + ":";
      text := text + parts[i];
      ScopeTextStep(parts, i);
      assert text == before + (Decimal(|parts[i]|) + ":" + parts[i]);
    }
    EmptyScopeText(parts[|parts|..]);
    assert text + [] == text;
  }

  // --------------------------------------------------------- DeterministicID

  const NUL: char := '\0'

  function TypeText(kind: EventType): (s: string)
    ensures NUL !in s
  {
    match kind
    case Untyped => ""
    case SessionStarted => "session_started"
    case SessionEnded => "session_ended"
    case UserPrompt => "user_prompt"
    case AssistantTurn => "assistant_turn"
    case ToolCall => "tool_call"
    case ToolResult => "tool_result"
    case ToolFailed => "tool_failed"
    case FileChanged => "file_changed"
    case SubagentStart => "subagent_start"
    case SubagentEnd => "subagent_end"
    case Compaction => "compaction"
    case Artifact => "artifact"
  }

  function Signed(n: int): (s: string)
    ensures s != [] && (s[0] == '-' <==> n < 0)
  {
    if n < 0 then "-" + Decimal(-n) else Decimal(n)
  }

  lemma SignedInjective(m: int, n: int)
    requires Signed(m) == Signed(n)
    ensures m == n
  {
    if m < 0 && n < 0 {
      assert Decimal(-m) == Signed(m)[1..] && Decimal(-n) == Signed(n)[1..];
      DecimalInjective(-m, -n);
    } else if m >= 0 {
      DecimalInjective(m, n);
    }
  }

  lemma SignedHasNoNul(n: int)
    ensures NUL !in Signed(n)
  {
    DecimalHasNo(if n < 0 then -n else n, NUL);
  }

  /** The text DeterministicID hashes. */
  function IdText(session: string, seqNo: int, typ: string, discriminator: string): string
  {
    session + [NUL] + (Signed(seqNo) + [NUL] + (typ + [NUL] + discriminator))
  }

  /** Without a NUL in the session id or the type, the text determines all four fields. */
  lemma IdTextInjective(s: string, n: int, t: string, d: string, s': string, n': int, t': string, d': string)
    requires NUL !in s && NUL !in s' && NUL !in t && NUL !in t'
    requires IdText(s, n, t, d) == IdText(s', n', t', d')
    ensures s == s' && n == n' && t == t' && d == d'
  {
    SignedHasNoNul(n);
    SignedHasNoNul(n');
    SplitAtFirst(s, Signed(n) + [NUL] + (t + [NUL] + d), s', Signed(n') + [NUL] + (t' + [NUL] + d'), NUL);
    SplitAtFirst(Signed(n), t + [NUL] + d, Signed(n'), t' + [NUL] + d', NUL);
    SplitAtFirst(t, d, t', d', NUL);
    SignedInjective(n, n');
  }

  /**
   * A NUL in a session id lets two events share a text, whatever their types, numbers and the rest:
   * the fields of the first move into the session id of the second.
   */
  lemma NulInSessionCollides(s: string, n: int, kind: EventType, n': int, kind': EventType, d: string)
    ensures IdText(s, n, TypeText(kind), Signed(n') + [NUL] + (TypeText(kind') + [NUL] + d))
            == IdText(s + [NUL] + (Signed(n) + [NUL] + TypeText(kind)), n', TypeText(kind'), d)
  {
    hide TypeText, Signed;
    var a, b, c, e := Signed(n), TypeText(kind), Signed(n'), TypeText(kind');
    assert s + [NUL] + (a + [NUL] + (b + [NUL] + (c + [NUL] + (e + [NUL] + d))))
        == s + [NUL] + (a + [NUL] + b) + [NUL] + (c + [NUL] + (e + [NUL] + d));
  }
}
