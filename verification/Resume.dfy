/** Resume bundles: a conversation delivered in pages by sequence number, and when the pages make it whole again. */
module Resume {
  import opened Events

  /**
   * A stored event: its agent (empty for the main stream) and the original record in its body,
   * compacted; empty for none.
   */
  datatype Row = Row(seqNo: int, agentId: string, record: string)

  predicate Replayable(r: Row)
  {
    r.agentId == "" && r.record != ""
  }

  /** The rows of a session as the store orders them: by seq, ties as they come. */
  ghost predicate InOrder(rows: seq<Row>)
  {
    forall i, j :: 0 <= i < j < |rows| ==> rows[i].seqNo <= rows[j].seqNo
  }

  /** The original records of the main stream, one per row, in order. */
  function Lines(rows: seq<Row>): seq<string>
  {
    if rows == [] then []
    else
      var last := rows[|rows| - 1];
      Lines(rows[..|rows| - 1]) + if Replayable(last) then [last.record] else []
  }

  function Bytes(lines: seq<string>): nat
  {
    if lines == [] then 0 else Bytes(lines[..|lines| - 1]) + |lines[|lines| - 1]|
  }

  lemma {:induction false} LinesJoin(a: seq<Row>, b: seq<Row>)
    ensures Lines(a + b) == Lines(a) + Lines(b)
  {
    if b == [] {
      assert a + b == a;
    } else {
      assert (a + b)[..|a + b| - 1] == a + b[..|b| - 1];
      LinesJoin(a, b[..|b| - 1]);
    }
  }

  // ---------------------------------------------------------------- one window

  /** How many rows are not past the bound. */
  function Seen(rows: seq<Row>, after: Option<int>): (n: nat)
    ensures n <= |rows|
  {
    if after == None || rows == [] || rows[0].seqNo > after.value then 0 else 1 + Seen(rows[1..], after)
  }

  lemma {:induction false} SeenSplits(rows: seq<Row>, after: Option<int>)
    requires InOrder(rows)
    ensures forall i :: 0 <= i < |rows| ==> (i >= Seen(rows, after) <==> after == None || rows[i].seqNo > after.value)
  {
    if after != None && rows != [] && rows[0].seqNo <= after.value {
      assert InOrder(rows[1..]) by { assert forall i :: 0 <= i < |rows| - 1 ==> rows[1..][i] == rows[i + 1]; }
      SeenSplits(rows[1..], after);
      forall i | 0 < i < |rows| ensures i >= Seen(rows, after) <==> rows[i].seqNo > after.value {
        assert rows[1..][i - 1] == rows[i];
      }
    } else if after == None || rows == [] {
      assert Seen(rows, after) == 0;
    } else {
      forall i | 0 <= i < |rows| ensures i >= Seen(rows, after) <==> rows[i].seqNo > after.value {
        assert rows[0].seqNo <= rows[i].seqNo;
      }
    }
  }

  datatype Window = Window(events: seq<Row>, hasMore: bool, nextAfter: Option<int>)

  /** GetEvents: one row more than the limit is read to learn whether there is more. */
  function Fetch(rows: seq<Row>, after: Option<int>, limit: nat): Window
    requires limit >= 1
  {
    var left := rows[Seen(rows, after)..];
    if |left| > limit then Window(left[..limit], true, Some(left[limit - 1].seqNo)) else Window(left, false, None)
  }

  /** Where the byte budget ends a page, looked at from row i: the first line is taken whatever it costs. */
  function TakenFrom(events: seq<Row>, maxBytes: nat, i: nat): (n: nat)
    requires i <= |events|
    ensures i <= n <= |events| && (events != [] ==> n >= 1)
    decreases |events| - i
  {
    if i == |events| then i
    else if Replayable(events[i]) && Lines(events[..i]) != []
            && Bytes(Lines(events[..i])) + |events[i].record| > maxBytes then i
    else TakenFrom(events, maxBytes, i + 1)
  }

  function Taken(events: seq<Row>, maxBytes: nat): (n: nat)
    ensures n <= |events| && (events != [] ==> n >= 1)
  {
    TakenFrom(events, maxBytes, 0)
  }

  datatype Scan = Scan(lines: seq<string>, bytes: nat, consumed: nat, noRecord: nat, subagent: nat,
                       lastSeq: Option<int>, truncated: bool)

  /** A scan that consumed the first n rows. */
  ghost predicate Consumed(s: Scan, events: seq<Row>, n: nat)
    requires n <= |events|
  {
    && s.consumed == n && s.lines == Lines(events[..n]) && s.bytes == Bytes(s.lines)
    && s.consumed == |s.lines| + s.noRecord + s.subagent
    && s.lastSeq == if n == 0 then None else Some(events[n - 1].seqNo)
  }

  /** Every page fits the byte budget or holds a single line. */
  method ScanTranscript(events: seq<Row>, maxBytes: nat) returns (s: Scan)
    ensures Consumed(s, events, Taken(events, maxBytes))
    ensures s.truncated <==> s.consumed < |events|
    ensures s.bytes <= maxBytes || |s.lines| == 1
  {
    hide Lines, Bytes;
    NoLines();
    s := Scan([], 0, 0, 0, 0, None, false);
    for i := 0 to |events|
      invariant Consumed(s, events, i) && !s.truncated
      invariant Taken(events, maxBytes) == TakenFrom(events, maxBytes, i)
      invariant s.bytes <= maxBytes || |s.lines| == 1
    {
      var e := events[i];
      LinesStep(events, i);
      if e.agentId != "" {
        s := s.(subagent := s.subagent + 1, lastSeq := Some(e.seqNo), consumed := s.consumed + 1);
        continue;
      }
      if e.record == "" {
        s := s.(noRecord := s.noRecord + 1, lastSeq := Some(e.seqNo), consumed := s.consumed + 1);
        continue;
      }
      if s.lines != [] && s.bytes + |e.record| > maxBytes { return s.(truncated := true); }
      BytesMore(s.lines, e.record);
      s := s.(lines := s.lines + [e.record]);
      s := s.(bytes := s.bytes + |e.record|, lastSeq := Some(e.seqNo), consumed := s.consumed + 1);
    }
  }

  lemma BytesMore(lines: seq<string>, line: string)
    ensures Bytes(lines + [line]) == Bytes(lines) + |line|
  {
    assert (lines + [line])[..|lines|] == lines;
  }

  lemma NoLines()
    ensures Lines([]) == [] && Bytes([]) == 0
  {
  }

  lemma LinesStep(rows: seq<Row>, i: nat)
    requires i < |rows|
    ensures Lines(rows[..i + 1]) == Lines(rows[..i]) + if Replayable(rows[i]) then [rows[i].record] else []
  {
    hide Replayable;
    assert rows[..i + 1][..i] == rows[..i];
  }

  // ------------------------------------------------------------------- cursors

  datatype Cursor = Cursor(kind: string, scope: string, after: Option<int>, fork: string)

  /** What a token turns out to be: nothing, not a cursor, or one. */
  datatype Token = NoToken | Garbage | Coded(cursor: Cursor)

  datatype Decoded = Invalid | Valid(cursor: Cursor)

  function DecodeCursor(token: Token, kind: string, scope: string): Decoded
  {
    match token
    case NoToken => Valid(Cursor(kind, scope, None, ""))
    case Garbage => Invalid
    case Coded(c) => if c.kind == kind && c.scope == scope then Valid(c) else Invalid
  }

  const RESUME := "resume"

  // ------------------------------------------------------------------- one page

  datatype Page = Page(lines: seq<string>, events: nat, complete: bool, next: Token, fork: string)

  datatype Response = Rejected | Served(page: Page)

  /** The rows a page that starts after the bound covers, and whether another follows. */
  ghost function Covered(rows: seq<Row>, after: Option<int>, limit: nat, maxBytes: nat): seq<Row>
    requires limit >= 1
  {
    var w := Fetch(rows, after, limit);
    w.events[..Taken(w.events, maxBytes)]
  }

  ghost predicate More(rows: seq<Row>, after: Option<int>, limit: nat, maxBytes: nat)
    requires limit >= 1
  {
    |Covered(rows, after, limit, maxBytes)| < |rows| - Seen(rows, after)
  }

  /** handleResume: the first page mints the fork's id, the cursor carries it to the rest. */
  method HandleResume(rows: seq<Row>, token: Token, scope: string, limit: nat, maxBytes: nat, minted: string)
    returns (r: Response)
    requires limit >= 1 && minted != ""
    ensures r == Rejected <==> DecodeCursor(token, RESUME, scope) == Invalid
    ensures r.Served? ==>
              var cur := DecodeCursor(token, RESUME, scope).cursor;
              var covered := Covered(rows, cur.after, limit, maxBytes);
              && r.page.lines == Lines(covered) && r.page.events == |covered|
              && (Bytes(r.page.lines) <= maxBytes || |r.page.lines| == 1)
              && r.page.fork == (if cur.fork == "" then minted else cur.fork)
              && r.page.complete == !More(rows, cur.after, limit, maxBytes)
              && r.page.next == if r.page.complete then NoToken
                                else Coded(Cursor(RESUME, scope, Some(covered[|covered| - 1].seqNo), r.page.fork))
  {
    hide Lines, Bytes, TakenFrom, Seen;
    var cur;
    match DecodeCursor(token, RESUME, scope) {
      case Invalid => return Rejected;
      case Valid(c) => cur := c;
    }
    var window := Fetch(rows, cur.after, limit);
    var scan := ScanTranscript(window.events, maxBytes);
    var fork := if cur.fork == "" then minted else cur.fork;
    var more := scan.truncated || window.hasMore;
    var next := NoToken;
    if more {
      var after := scan.lastSeq;
      if !scan.truncated && window.nextAfter != None { after := window.nextAfter; }
      if after != None {
        next := Coded(Cursor(RESUME, scope, after, fork));
      } else {
        more := false;
      }
    }
    return Served(Page(scan.lines, scan.consumed, !more, next, fork));
  }

  // ------------------------------------------------------------------- all pages

  /** A page covers something, and the next one starts past all of it. */
  lemma SeenGrows(rows: seq<Row>, after: Option<int>, q: nat)
    requires InOrder(rows) && q < |rows|
    ensures Seen(rows, Some(rows[q].seqNo)) > q
  {
    SeenSplits(rows, Some(rows[q].seqNo));
  }

  lemma CoveredIs(rows: seq<Row>, after: Option<int>, limit: nat, maxBytes: nat)
    requires limit >= 1
    ensures var p, covered := Seen(rows, after), Covered(rows, after, limit, maxBytes);
            p + |covered| <= |rows| && covered == rows[p..p + |covered|] && (p < |rows| ==> covered != [])
  {
  }

  /** The bound the next page starts after. */
  ghost function NextAfter(rows: seq<Row>, after: Option<int>, limit: nat, maxBytes: nat): (next: Option<int>)
    requires InOrder(rows) && limit >= 1 && More(rows, after, limit, maxBytes)
    ensures Seen(rows, after) + |Covered(rows, after, limit, maxBytes)| <= Seen(rows, next)
    ensures Seen(rows, after) < Seen(rows, next)
  {
    var covered := Covered(rows, after, limit, maxBytes);
    CoveredIs(rows, after, limit, maxBytes);
    SeenGrows(rows, after, Seen(rows, after) + |covered| - 1);
    Some(covered[|covered| - 1].seqNo)
  }

  /** The lines of the pages from the bound on. */
  ghost function Collected(rows: seq<Row>, after: Option<int>, limit: nat, maxBytes: nat): seq<string>
    requires InOrder(rows) && limit >= 1
    decreases |rows| - Seen(rows, after)
  {
    Lines(Covered(rows, after, limit, maxBytes))
    + if More(rows, after, limit, maxBytes)
      then Collected(rows, NextAfter(rows, after, limit, maxBytes), limit, maxBytes) else []
  }

  /** The lines that no page shows: rows after a page's last that share its number. */
  ghost function Missed(rows: seq<Row>, after: Option<int>, limit: nat, maxBytes: nat): seq<string>
    requires InOrder(rows) && limit >= 1
    decreases |rows| - Seen(rows, after)
  {
    if !More(rows, after, limit, maxBytes) then []
    else
      var next := NextAfter(rows, after, limit, maxBytes);
      Lines(rows[Seen(rows, after) + |Covered(rows, after, limit, maxBytes)|..Seen(rows, next)])
      + Missed(rows, next, limit, maxBytes)
  }

  lemma {:induction false} CollectedOrMissed(rows: seq<Row>, after: Option<int>, limit: nat, maxBytes: nat)
    requires InOrder(rows) && limit >= 1
    ensures |Lines(rows[Seen(rows, after)..])|
            == |Collected(rows, after, limit, maxBytes)| + |Missed(rows, after, limit, maxBytes)|
    ensures Missed(rows, after, limit, maxBytes) == [] ==>
            Collected(rows, after, limit, maxBytes) == Lines(rows[Seen(rows, after)..])
    decreases |rows| - Seen(rows, after)
  {
    hide Lines, Covered, Seen;
    var p, covered := Seen(rows, after), Covered(rows, after, limit, maxBytes);
    CoveredIs(rows, after, limit, maxBytes);
    if More(rows, after, limit, maxBytes) {
      var next := NextAfter(rows, after, limit, maxBytes);
      var q, p' := p + |covered|, Seen(rows, next);
      CollectedOrMissed(rows, next, limit, maxBytes);
      var gap := rows[q..p'];
      assert rows[p..] == covered + gap + rows[p'..];
      LinesJoin(covered, gap);
      LinesJoin(covered + gap, rows[p'..]);
    } else {
      assert rows[p..] == covered;
      assert Lines(covered) + [] == Lines(covered);
    }
  }

  /** The pages, put together, are the conversation exactly when they miss nothing. */
  lemma WholeIfNothingMissed(rows: seq<Row>, limit: nat, maxBytes: nat)
    requires InOrder(rows) && limit >= 1
    ensures Collected(rows, None, limit, maxBytes) == Lines(rows) <==> Missed(rows, None, limit, maxBytes) == []
  {
    hide Lines, Collected, Missed;
    CollectedOrMissed(rows, None, limit, maxBytes);
    assert rows[0..] == rows;
  }

  /** A row that shares its number with the row before it has no line to show. */
  ghost predicate Separable(rows: seq<Row>)
  {
    forall j :: 0 < j < |rows| && rows[j - 1].seqNo == rows[j].seqNo ==> !Replayable(rows[j])
  }

  lemma {:induction false} NothingReplayable(rows: seq<Row>)
    requires forall j :: 0 <= j < |rows| ==> !Replayable(rows[j])
    ensures Lines(rows) == []
  {
    hide Replayable;
    if rows != [] { NothingReplayable(rows[..|rows| - 1]); }
  }

  /** The rows after a page's last that share its number show nothing. */
  lemma GapShowsNothing(rows: seq<Row>, q: nat, next: int)
    requires InOrder(rows) && Separable(rows) && 0 < q <= Seen(rows, Some(next)) && rows[q - 1].seqNo == next
    ensures Lines(rows[q..Seen(rows, Some(next))]) == []
  {
    var gap := rows[q..Seen(rows, Some(next))];
    SeenSplits(rows, Some(next));
    hide Seen, Replayable;
    forall j | 0 <= j < |gap| ensures !Replayable(gap[j]) {
      assert rows[q - 1].seqNo <= rows[q + j - 1].seqNo <= rows[q + j].seqNo <= next;
    }
    NothingReplayable(gap);
  }

  lemma {:induction false} SeparableMissesNothing(rows: seq<Row>, after: Option<int>, limit: nat, maxBytes: nat)
    requires InOrder(rows) && Separable(rows) && limit >= 1
    ensures Missed(rows, after, limit, maxBytes) == []
    decreases |rows| - Seen(rows, after)
  {
    hide Covered, Seen, Lines, Separable, InOrder;
    if More(rows, after, limit, maxBytes) {
      var next := NextAfter(rows, after, limit, maxBytes);
      CoveredIs(rows, after, limit, maxBytes);
      GapShowsNothing(rows, Seen(rows, after) + |Covered(rows, after, limit, maxBytes)|, next.value);
      SeparableMissesNothing(rows, next, limit, maxBytes);
    }
  }

  lemma {:induction false} EverythingFits(events: seq<Row>, maxBytes: nat, i: nat)
    requires i <= |events| && Bytes(Lines(events)) <= maxBytes
    ensures TakenFrom(events, maxBytes, i) == |events|
    decreases |events| - i
  {
    if i < |events| {
      EverythingFits(events, maxBytes, i + 1);
      PrefixBytes(events, i + 1);
      LinesStep(events, i);
      hide Lines, Replayable;
      var front := Lines(events[..i]);
      assert front + [] == front && (front + [events[i].record])[..|front|] == front;
    }
  }

  lemma {:induction false} PrefixBytes(events: seq<Row>, i: nat)
    requires i <= |events|
    ensures Bytes(Lines(events[..i])) <= Bytes(Lines(events))
    decreases |events| - i
  {
    assert events[..|events|] == events;
    if i < |events| {
      PrefixBytes(events, i + 1);
      LinesStep(events, i);
      hide Lines, Replayable;
      var front := Lines(events[..i]);
      assert front + [] == front && (front + [events[i].record])[..|front|] == front;
    }
  }

  /** With bytes to spare, the first page is as many rows as it may hold. */
  lemma FirstPage(rows: seq<Row>, limit: nat, maxBytes: nat)
    requires InOrder(rows) && 1 <= limit < |rows| && Bytes(Lines(rows)) <= maxBytes
    ensures Covered(rows, None, limit, maxBytes) == rows[..limit] && More(rows, None, limit, maxBytes)
  {
    assert Seen(rows, None) == 0 && rows[0..] == rows;
    PrefixBytes(rows, limit);
    EverythingFits(rows[..limit], maxBytes, 0);
    hide Lines, Bytes;
    assert rows[..limit][..limit] == rows[..limit];
  }

  lemma {:induction false} LinesOfOne(rows: seq<Row>, i: nat)
    requires i < |rows| && Replayable(rows[i])
    ensures Lines(rows) != []
  {
    if i < |rows| - 1 { LinesOfOne(rows[..|rows| - 1], i); }
  }

  /** A page that ends just before a replayable row of its last number misses that row. */
  lemma MissesTheSecond(rows: seq<Row>, j: nat, maxBytes: nat)
    requires InOrder(rows) && 0 < j < |rows| && Bytes(Lines(rows)) <= maxBytes
    requires rows[j - 1].seqNo == rows[j].seqNo && Replayable(rows[j])
    ensures Missed(rows, None, j, maxBytes) != []
  {
    FirstPage(rows, j, maxBytes);
    var next := NextAfter(rows, None, j, maxBytes);
    assert next == Some(rows[j - 1].seqNo) && Seen(rows, None) == 0;
    SeenGrows(rows, next, j);
    var gap := rows[j..Seen(rows, next)];
    LinesOfOne(gap, 0);
    hide Lines, Seen, Covered;
    assert Missed(rows, None, j, maxBytes) == Lines(gap) + Missed(rows, next, j, maxBytes);
  }

  /** Whatever the page size and the byte budget, the pages are the conversation. */
  ghost predicate AlwaysWhole(rows: seq<Row>)
    requires InOrder(rows)
  {
    forall limit: nat, maxBytes: nat :: limit >= 1 ==> Collected(rows, None, limit, maxBytes) == Lines(rows)
  }

  /**
   * The pages, put together, are the conversation under every page size and byte budget exactly
   * when no main-stream record shares its number with the row before it.
   */
  lemma PagesReassembleExactly(rows: seq<Row>)
    requires InOrder(rows)
    ensures AlwaysWhole(rows) <==> Separable(rows)
  {
    hide Lines, Collected, Missed, InOrder;
    if Separable(rows) {
      forall limit: nat, maxBytes: nat | limit >= 1 ensures Collected(rows, None, limit, maxBytes) == Lines(rows) {
        SeparableMissesNothing(rows, None, limit, maxBytes);
        WholeIfNothingMissed(rows, limit, maxBytes);
      }
    } else {
      var j :| 0 < j < |rows| && rows[j - 1].seqNo == rows[j].seqNo && Replayable(rows[j]);
      MissesTheSecond(rows, j, Bytes(Lines(rows)));
      WholeIfNothingMissed(rows, j, Bytes(Lines(rows)));
    }
  }

  /** Over a store that answers in strictly increasing numbers the pages are the conversation, each record once. */
  lemma PagesReassemble(rows: seq<Row>, limit: nat, maxBytes: nat)
    requires (forall i, j :: 0 <= i < j < |rows| ==> rows[i].seqNo < rows[j].seqNo) && limit >= 1
    ensures InOrder(rows) && Collected(rows, None, limit, maxBytes) == Lines(rows)
  {
    hide Collected, Missed, Lines;
    SeparableMissesNothing(rows, None, limit, maxBytes);
    WholeIfNothingMissed(rows, limit, maxBytes);
  }

  lemma LinesOfTwo(n: int, agentId: string, a: string, m: string)
    requires agentId != "" && m != ""
    ensures Lines([Row(n, agentId, a), Row(n, "", m)]) == [m] && Lines([Row(n, agentId, a)]) == []
    ensures Bytes([m]) == |m| && Lines([]) == []
  {
    var rows := [Row(n, agentId, a), Row(n, "", m)];
    assert rows[..0] == [] && rows[..1] == [Row(n, agentId, a)] && rows[..2] == rows && [m][..0] == [];
    LinesStep(rows, 0);
    LinesStep(rows, 1);
  }

  /**
   * A subagent numbers its own stream: a page of one row that ends on the subagent's hides the main
   * record of the same number, whatever the two say and however many bytes a page may have.
   */
  lemma SharedNumberHidesALine(n: int, agentId: string, a: string, m: string, maxBytes: nat)
    requires agentId != "" && m != "" && |m| <= maxBytes
    ensures var rows := [Row(n, agentId, a), Row(n, "", m)];
            InOrder(rows) && Lines(rows) == [m] && Collected(rows, None, 1, maxBytes) == []
  {
    var rows := [Row(n, agentId, a), Row(n, "", m)];
    LinesOfTwo(n, agentId, a, m);
    FirstPage(rows, 1, maxBytes);
    assert rows[..1] == [rows[0]];
    var next := NextAfter(rows, None, 1, maxBytes);
    SeenGrows(rows, next, 1);
    CollectedStep(rows, None, 1, maxBytes);
    CollectedStep(rows, next, 1, maxBytes);
    CoveredIs(rows, next, 1, maxBytes);
    hide Lines, Seen, Collected, Bytes, Covered;
    assert Covered(rows, next, 1, maxBytes) == [];
  }

  /** A reader that follows next_cursor to the end: it gets there, with every page under one fork id. */
  method FollowAll(rows: seq<Row>, scope: string, limit: nat, maxBytes: nat, minted: string)
    returns (lines: seq<string>, fork: string, pages: nat)
    requires InOrder(rows) && limit >= 1 && minted != ""
    ensures lines == Collected(rows, None, limit, maxBytes) && fork == minted
    ensures pages <= |rows| + 1
  {
    hide Lines, Bytes, Covered, Seen, Collected, InOrder, More;
    lines, fork, pages := [], minted, 0;
    var token := NoToken;
    ghost var after: Option<int> := None;
    assert Seen(rows, None) == 0 by { SeenStart(rows); }
    while true
      invariant DecodeCursor(token, RESUME, scope).Valid? && DecodeCursor(token, RESUME, scope).cursor.after == after
      invariant DecodeCursor(token, RESUME, scope).cursor.fork in {"", minted}
      invariant lines + Collected(rows, after, limit, maxBytes) == Collected(rows, None, limit, maxBytes)
      invariant pages <= Seen(rows, after)
      decreases |rows| - Seen(rows, after)
    {
      var r := HandleResume(rows, token, scope, limit, maxBytes, minted);
      var page := r.page;
      CollectedStep(rows, after, limit, maxBytes);
      pages := pages + 1;
      lines := lines + page.lines;
      fork := page.fork;
      if page.complete {
        assert lines + [] == lines;
        return;
      }
      token := page.next;
      after := NextAfter(rows, after, limit, maxBytes);
    }
  }

  lemma CollectedStep(rows: seq<Row>, after: Option<int>, limit: nat, maxBytes: nat)
    requires InOrder(rows) && limit >= 1
    ensures Collected(rows, after, limit, maxBytes)
         == Lines(Covered(rows, after, limit, maxBytes))
            + if More(rows, after, limit, maxBytes)
              then Collected(rows, NextAfter(rows, after, limit, maxBytes), limit, maxBytes) else []
    ensures More(rows, after, limit, maxBytes) ==> Covered(rows, after, limit, maxBytes) != []
    ensures Seen(rows, after) <= |rows|
  {
    CoveredIs(rows, after, limit, maxBytes);
  }

  lemma SeenStart(rows: seq<Row>)
    ensures Seen(rows, None) == 0
  {
  }
}
