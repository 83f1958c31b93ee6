/**
 * The bounded tail read: the last model call of a transcript, found in a window that
 * widens from the end, agrees with a scan of the whole file.
 */
module Tail {
  import opened Events
  import opened Names
  import opened Transcript

  // ------------------------------------------------------------------- lines

  function Trimmed(line: string): seq<string>
  {
    var t := TrimSpace(line);
    if t != [] then [t] else []
  }

  /** The file's records: split at newlines, trimmed, the blank ones dropped. */
  function Lines(b: string): seq<string>
    decreases |b|
  {
    var head := UpTo(b, '\n');
    Trimmed(head) + if |head| < |b| then Lines(b[|head| + 1..]) else []
  }

  lemma NoBreak(a: string)
    requires '\n' !in a
    ensures UpTo(a, '\n') == a && Lines(a) == Trimmed(a)
  {
    hide Trimmed;
    UpToSelf(a, '\n');
  }

  lemma FirstBreak(a: string, rest: string)
    requires '\n' !in a
    ensures UpTo(a + ['\n'] + rest, '\n') == a && (a + ['\n'] + rest)[|a| + 1..] == rest
    ensures Lines(a + ['\n'] + rest) == Trimmed(a) + Lines(rest)
  {
    hide Trimmed;
    var b := a + ['\n'] + rest;
    assert b == a + (['\n'] + rest);
    UpToAppend(a, ['\n'] + rest, '\n');
    assert UpTo(['\n'] + rest, '\n') == [];
    assert UpTo(b, '\n') == a + [] == a;
    assert b[|a| + 1..] == rest;
  }

  /** A text with a newline is its head, the newline and the rest. */
  lemma AtBreak(x: string)
    requires '\n' in x
    ensures var head := UpTo(x, '\n');
            |head| < |x| && '\n' !in head && x == head + ['\n'] + x[|head| + 1..]
  {
    HeadShorter(x, '\n');
  }

  lemma {:induction false} HeadShorter(s: string, c: char)
    requires c in s
    ensures |UpTo(s, c)| < |s|
  {
    if s[0] != c { HeadShorter(s[1..], c); }
  }

  lemma {:induction false} LinesJoin(x: string, y: string)
    ensures Lines(x + ['\n'] + y) == Lines(x) + Lines(y)
    decreases |x|
  {
    hide Trimmed, Lines, UpTo;
    if '\n' !in x {
      NoBreak(x);
      FirstBreak(x, y);
    } else {
      AtBreak(x);
      var head := UpTo(x, '\n');
      var rest := x[|head| + 1..];
      FirstBreak(head, rest);
      FirstBreak(head, rest + ['\n'] + y);
      LinesJoin(rest, y);
      assert x + ['\n'] + y == head + ['\n'] + (rest + ['\n'] + y);
    }
  }

  /** bytes.IndexByte for the newline, from start; the end when there is none. */
  method NextBreak(buf: string, start: nat) returns (i: nat)
    requires start <= |buf|
    ensures start <= i <= |buf| && '\n' !in buf[start..i] && (i < |buf| ==> buf[i] == '\n')
  {
    i := start;
    while i < |buf| && buf[i] != '\n'
      invariant start <= i <= |buf|
      invariant '\n' !in buf[start..i]
    {
      i := i + 1;
    }
  }

  lemma LinesFrom(buf: string, start: nat, i: nat)
    requires start <= i <= |buf| && '\n' !in buf[start..i] && (i < |buf| ==> buf[i] == '\n')
    ensures Lines(buf[start..]) == Trimmed(buf[start..i]) + if i < |buf| then Lines(buf[i + 1..]) else []
  {
    hide Lines, UpTo, Trimmed;
    if i < |buf| {
      assert buf[start..] == buf[start..i] + ['\n'] + buf[i + 1..];
      FirstBreak(buf[start..i], buf[i + 1..]);
    } else {
      assert buf[start..] == buf[start..i];
      NoBreak(buf[start..]);
    }
  }

  method SplitLines(buf: string) returns (out: seq<string>)
    ensures out == Lines(buf)
  {
    hide TrimSpace, Lines;
    out := [];
    var start := 0;
    assert buf[0..] == buf;
    while true
      invariant 0 <= start <= |buf|
      invariant out + Lines(buf[start..]) == Lines(buf)
      decreases |buf| - start
    {
      var i := NextBreak(buf, start);
      LinesFrom(buf, start, i);
      ghost var before := out;
      var t := TrimSpace(buf[start..i]);
      if t != [] { out := out + [t]; }
      assert out == before + Trimmed(buf[start..i]);
      if i == |buf| { break; }
      start := i + 1;
    }
  }

  // ------------------------------------------------------------------ window

  datatype Window = Window(lines: seq<string>, whole: bool)

  /** The offset of the read: one byte before the window, to see whether the window opens a record. */
  function Offset(size: nat, window: nat): nat
  {
    if size > window then size - window - 1 else 0
  }

  /** tailLines: the last window bytes of a file as whole lines. An empty file is a failure. */
  function View(file: string, window: nat): Option<Window>
  {
    var offset := Offset(|file|, window);
    var buf := file[offset..];
    var head := UpTo(buf, '\n');
    if file == [] then None
    else if offset == 0 then Some(Window(Lines(file), true))
    else if |head| == |buf| then Some(Window([], false))
    else Some(Window(Lines(buf[|head| + 1..]), false))
  }

  lemma ViewAt(file: string, window: nat, head: string, rest: string)
    requires Offset(|file|, window) > 0 && '\n' !in head
    requires file[Offset(|file|, window)..] == head + ['\n'] + rest
    ensures View(file, window) == Some(Window(Lines(rest), false))
  {
    hide Lines, UpTo;
    FirstBreak(head, rest);
  }

  method TailLines(file: string, window: nat) returns (view: Option<Window>)
    ensures view == View(file, window)
  {
    hide Lines, UpTo;
    if |file| == 0 { return None; }
    var offset := 0;
    if |file| > window { offset := |file| - window - 1; }
    var buf := file[offset..];
    assert buf[0..] == buf;
    if offset > 0 {
      var i := NextBreak(buf, 0);
      if i < |buf| { ViewAt(file, window, buf[..i], buf[i + 1..]); } else { NoBreak(buf); }
      if i == |buf| { return Some(Window([], false)); }
      buf := buf[i + 1..];
    }
    var lines := SplitLines(buf);
    return Some(Window(lines, offset == 0));
  }

  /** The lines of any window are a suffix of the file's lines, all of them when it reached the start. */
  lemma WindowIsSuffix(file: string, window: nat) returns (unseen: seq<string>)
    requires file != []
    ensures Lines(file) == unseen + View(file, window).value.lines
    ensures View(file, window).value.whole ==> unseen == []
  {
    hide Lines, UpTo;
    var offset := Offset(|file|, window);
    var buf := file[offset..];
    if offset == 0 {
      unseen := [];
    } else if '\n' in buf {
      AtBreak(buf);
      var head := UpTo(buf, '\n');
      var x, y := file[..offset] + head, buf[|head| + 1..];
      ViewAt(file, window, head, y);
      assert file == x + ['\n'] + y;
      LinesJoin(x, y);
      unseen := Lines(x);
    } else {
      NoBreak(buf);
      unseen := Lines(file);
    }
  }

  lemma ViewInside(file: string, window: nat, start: string, y: string) returns (more: seq<string>)
    requires Offset(|file|, window) > 0
    requires file[Offset(|file|, window)..] == start + ['\n'] + y
    ensures View(file, window).Some? && View(file, window).value.lines == more + Lines(y)
  {
    hide Lines, UpTo, View;
    if '\n' in start {
      AtBreak(start);
      var head := UpTo(start, '\n');
      var mid := start[|head| + 1..];
      assert start + ['\n'] + y == head + ['\n'] + (mid + ['\n'] + y);
      ViewAt(file, window, head, mid + ['\n'] + y);
      LinesJoin(mid, y);
      more := Lines(mid);
    } else {
      ViewAt(file, window, start, y);
      more := [];
    }
  }

  /** Every record that lies within the last window bytes is shown, the one the window opens on too. */
  lemma WindowShowsItsRecords(file: string, window: nat, x: string, y: string) returns (more: seq<string>)
    requires file == x + ['\n'] + y && |y| <= window
    ensures View(file, window).Some? && View(file, window).value.lines == more + Lines(y)
  {
    hide Lines, UpTo;
    var offset := Offset(|file|, window);
    if offset == 0 {
      LinesJoin(x, y);
      more := Lines(x);
    } else {
      assert offset <= |x|;
      assert file[offset..] == x[offset..] + ['\n'] + y;
      more := ViewInside(file, window, x[offset..], y);
    }
  }

  // --------------------------------------------------------- the last model call

  datatype Brief = Brief(kind: string, promptId: string)

  /** How a line parses: as a whole record, as the two fields that name a prompt, as a timestamp alone. */
  datatype Reader = Reader(full: string -> Line, brief: string -> Option<Brief>, stamp: string -> Option<Time>)

  datatype LastCall = LastCall(
    uuid: string,
    promptId: string,
    promptAfter: string,
    toolUse: bool,
    text: string,
    timestamp: Time,
    usage: Usage)

  predicate Spent(u: Option<Usage>)
  {
    match u
    case None => false
    case Some(s) => s.input + s.output + s.cacheRead + s.cacheCreation + s.ephemeral5m + s.ephemeral1h > 0
  }

  predicate IsModelCall(rd: Reader, line: string)
  {
    var l := rd.full(line);
    l.Good? && l.rec.kind == "assistant" && Spent(l.rec.usage)
  }

  predicate NamesPrompt(rd: Reader, line: string)
  {
    match rd.brief(line)
    case None => false
    case Some(b) => b.kind == "user" && b.promptId != ""
  }

  /** The last model call's position, or -1. */
  function LastIn(rd: Reader, lines: seq<string>): (i: int)
    ensures -1 <= i < |lines| && (i >= 0 ==> IsModelCall(rd, lines[i]))
    ensures forall j :: i < j < |lines| ==> !IsModelCall(rd, lines[j])
  {
    if lines == [] then -1
    else if IsModelCall(rd, lines[|lines| - 1]) then |lines| - 1
    else LastIn(rd, lines[..|lines| - 1])
  }

  /** The prompt the nearest user record above the end of lines names. */
  function PromptAbove(rd: Reader, lines: seq<string>): string
  {
    if lines == [] then ""
    else if NamesPrompt(rd, lines[|lines| - 1]) then rd.brief(lines[|lines| - 1]).value.promptId
    else PromptAbove(rd, lines[..|lines| - 1])
  }

  /** The prompt the nearest user record below names. */
  function PromptBelow(rd: Reader, lines: seq<string>): string
  {
    if lines == [] then ""
    else if NamesPrompt(rd, lines[0]) then rd.brief(lines[0]).value.promptId
    else PromptBelow(rd, lines[1..])
  }

  predicate HasToolUse(blocks: seq<Block>)
  {
    exists b :: b in blocks && b.ToolUse?
  }

  function CallAt(rd: Reader, lines: seq<string>, i: nat): LastCall
    requires i < |lines| && IsModelCall(rd, lines[i])
  {
    var r := rd.full(lines[i]).rec;
    LastCall(
      r.uuid,
      if r.promptId != "" then r.promptId else PromptAbove(rd, lines[..i]),
      PromptBelow(rd, lines[i + 1..]),
      HasToolUse(r.blocks),
      Prose(r),
      match r.timestamp { case Some(t) => t case None => ZERO_TIME },
      r.usage.value.(requestId := r.requestId))
  }

  /** A scan of lines for the last model call. */
  function Scan(rd: Reader, lines: seq<string>): Option<LastCall>
  {
    var i := LastIn(rd, lines);
    if i < 0 then None else Some(CallAt(rd, lines, i))
  }

  method PromptBefore(rd: Reader, lines: seq<string>, i: nat) returns (promptId: string)
    requires i <= |lines|
    ensures promptId == PromptAbove(rd, lines[..i])
  {
    var j := i;
    while j > 0
      invariant 0 <= j <= i
      invariant PromptAbove(rd, lines[..i]) == PromptAbove(rd, lines[..j])
    {
      j := j - 1;
      assert lines[..j + 1][..j] == lines[..j];
      match rd.brief(lines[j]) {
        case Some(b) => if b.kind == "user" && b.promptId != "" { return b.promptId; }
        case None =>
      }
    }
    return "";
  }

  method PromptAfter(rd: Reader, lines: seq<string>, i: nat) returns (promptId: string)
    requires i < |lines|
    ensures promptId == PromptBelow(rd, lines[i + 1..])
  {
    var j := i + 1;
    while j < |lines|
      invariant i < j <= |lines|
      invariant PromptBelow(rd, lines[i + 1..]) == PromptBelow(rd, lines[j..])
    {
      assert lines[j..][1..] == lines[j + 1..];
      match rd.brief(lines[j]) {
        case Some(b) => if b.kind == "user" && b.promptId != "" { return b.promptId; }
        case None =>
      }
      j := j + 1;
    }
    return "";
  }

  method LastAssistantIn(rd: Reader, lines: seq<string>) returns (call: Option<LastCall>)
    ensures call == Scan(rd, lines)
  {
    assert lines[..|lines|] == lines;
    var i := |lines|;
    while i > 0
      invariant 0 <= i <= |lines|
      invariant LastIn(rd, lines) == LastIn(rd, lines[..i])
    {
      i := i - 1;
      assert lines[..i + 1][..i] == lines[..i];
      if IsModelCall(rd, lines[i]) {
        var r := rd.full(lines[i]).rec;
        var promptId := r.promptId;
        if promptId == "" { promptId := PromptBefore(rd, lines, i); }
        var after := PromptAfter(rd, lines, i);
        var at := match r.timestamp { case Some(t) => t case None => ZERO_TIME };
        return Some(LastCall(r.uuid, promptId, after, HasToolUse(r.blocks), Prose(r), at,
                             r.usage.value.(requestId := r.requestId)));
      }
    }
    return None;
  }

  lemma {:induction false} LastInSuffix(rd: Reader, older: seq<string>, lines: seq<string>)
    ensures LastIn(rd, lines) >= 0 ==> LastIn(rd, older + lines) == |older| + LastIn(rd, lines)
    ensures LastIn(rd, lines) < 0 ==> LastIn(rd, older + lines) == LastIn(rd, older)
  {
    hide IsModelCall;
    if lines == [] {
      assert older + lines == older;
    } else {
      var k := |lines| - 1;
      assert (older + lines)[..|older| + k] == older + lines[..k];
      LastInSuffix(rd, older, lines[..k]);
    }
  }

  lemma {:induction false} PromptAboveSuffix(rd: Reader, older: seq<string>, lines: seq<string>)
    ensures PromptAbove(rd, lines) != "" ==> PromptAbove(rd, older + lines) == PromptAbove(rd, lines)
    ensures PromptAbove(rd, lines) == "" ==> PromptAbove(rd, older + lines) == PromptAbove(rd, older)
  {
    if lines == [] {
      assert older + lines == older;
    } else {
      var k := |lines| - 1;
      assert (older + lines)[..|older| + k] == older + lines[..k];
      PromptAboveSuffix(rd, older, lines[..k]);
    }
  }

  /** What a suffix of the lines finds is what all of them hold, but for a prompt that lies above it. */
  lemma ScanSuffix(rd: Reader, older: seq<string>, lines: seq<string>)
    ensures Scan(rd, lines).Some? ==>
              && Scan(rd, older + lines).Some?
              && Scan(rd, older + lines).value.(promptId := "") == Scan(rd, lines).value.(promptId := "")
              && (Scan(rd, lines).value.promptId != "" || older == [] ==> Scan(rd, older + lines) == Scan(rd, lines))
  {
    hide IsModelCall, PromptAbove, PromptBelow, HasToolUse, Prose;
    var i := LastIn(rd, lines);
    if i >= 0 {
      var all, k := older + lines, |older| + i;
      LastInSuffix(rd, older, lines);
      assert all[k] == lines[i] && all[k + 1..] == lines[i + 1..] && all[..k] == older + lines[..i];
      PromptAboveSuffix(rd, older, lines[..i]);
      assert older == [] ==> all == lines;
    }
  }

  lemma NothingToScan(rd: Reader)
    ensures Lines("") == [] && Scan(rd, []) == None
  {
  }

  lemma ViewReaches(file: string, window: nat)
    ensures View(file, window) == None <==> file == []
    ensures file != [] ==> (View(file, window).value.whole <==> |file| <= window + 1)
    ensures file != [] && |file| <= window + 1 ==> View(file, window).value.lines == Lines(file)
  {
    hide Lines;
  }

  const TAIL_BYTES: nat := 64 * 1024
  const TAIL_MAX_BYTES: nat := 4 * 1024 * 1024

  /** The widening read. What it finds is what a scan of the whole file finds. */
  method LastAssistantRecord(rd: Reader, file: string) returns (last: Option<LastCall>)
    ensures last.Some? ==>
              Scan(rd, Lines(file)).Some? && Scan(rd, Lines(file)).value.(promptId := "") == last.value.(promptId := "")
    ensures last.Some? && last.value.promptId != "" ==> last == Scan(rd, Lines(file))
    ensures |file| <= TAIL_MAX_BYTES + 1 ==> last == Scan(rd, Lines(file))
    ensures last == None && file != [] ==> Scan(rd, View(file, TAIL_MAX_BYTES).value.lines) == None
  {
    hide View, Lines, Scan;
    last := None;
    var window := TAIL_BYTES;
    NothingToScan(rd);
    ghost var full := Scan(rd, Lines(file));
    while true
      invariant TAIL_BYTES <= window <= TAIL_MAX_BYTES
      invariant last.Some? ==> full.Some? && full.value.(promptId := "") == last.value.(promptId := "")
      invariant last.Some? ==> last.value.promptId == ""
      decreases TAIL_MAX_BYTES - window
    {
      var view := TailLines(file, window);
      ViewReaches(file, window);
      ViewReaches(file, TAIL_MAX_BYTES);
      if view == None { return; }
      var lines := view.value.lines;
      ghost var unseen := WindowIsSuffix(file, window);
      ScanSuffix(rd, unseen, lines);
      if lines != [] { last := LastAssistantIn(rd, lines); }
      if (last.Some? && last.value.promptId != "") || view.value.whole || window >= TAIL_MAX_BYTES { return; }
      window := if window * 4 < TAIL_MAX_BYTES then window * 4 else TAIL_MAX_BYTES;
    }
  }

  // ---------------------------------------------------------- the newest record

  /** The timestamp of the last line that has one. */
  function LastTime(rd: Reader, lines: seq<string>): Time
  {
    if lines == [] then ZERO_TIME
    else match rd.stamp(lines[|lines| - 1])
      case Some(t) => t
      case None => LastTime(rd, lines[..|lines| - 1])
  }

  lemma {:induction false} LastTimeSuffix(rd: Reader, older: seq<string>, lines: seq<string>)
    ensures LastTime(rd, lines) != ZERO_TIME ==> LastTime(rd, older + lines) == LastTime(rd, lines)
  {
    if lines != [] {
      var k := |lines| - 1;
      assert (older + lines)[..|older| + k] == older + lines[..k];
      LastTimeSuffix(rd, older, lines[..k]);
    }
  }

  /** The instant a file's import window is decided by: when the tail shows one it is the whole file's. */
  method LastTimestamp(rd: Reader, file: string) returns (t: Time)
    ensures t != ZERO_TIME ==> t == LastTime(rd, Lines(file))
    ensures |file| <= TAIL_BYTES + 1 ==> t == LastTime(rd, Lines(file))
  {
    hide View, Lines;
    NothingToScan(rd);
    ViewReaches(file, TAIL_BYTES);
    var view := TailLines(file, TAIL_BYTES);
    if view == None { return ZERO_TIME; }
    var lines := view.value.lines;
    ghost var unseen := WindowIsSuffix(file, TAIL_BYTES);
    LastTimeSuffix(rd, unseen, lines);
    var i := |lines|;
    assert lines[..i] == lines;
    while i > 0
      invariant 0 <= i <= |lines|
      invariant LastTime(rd, lines) == LastTime(rd, lines[..i])
    {
      i := i - 1;
      assert lines[..i + 1][..i] == lines[..i];
      match rd.stamp(lines[i]) {
        case Some(at) => return at;
        case None =>
      }
    }
    return ZERO_TIME;
  }
}
