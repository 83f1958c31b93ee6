/** What the numbers and ids of a walk mean, over every walk: in order, distinct, and the same whatever is filtered. */
module Numbering {
  import opened Events
  import opened Names
  import opened Encoding
  import opened Transcript
  import opened Walker

  // ---------------------------------------------------- numbers are positions

  /** How many of the events belong to a stream. */
  ghost function Count(events: seq<Numbered>, stream: string): nat
  {
    if events == [] then 0
    else
      var k := |events| - 1;
      Count(events[..k], stream) + if StreamOf(events[k].event) == stream then 1 else 0
  }

  ghost predicate Identified(e: Event, rest: string)
  {
    e.id == IdText(e.sessionId, e.seqNo, TypeText(e.kind), e.agentId + ['|'] + rest)
  }

  /** Each event's number is the count of its stream's earlier events, and its id spells its stream and number. */
  ghost predicate Proper(events: seq<Numbered>)
  {
    forall i :: 0 <= i < |events| ==>
      && events[i].event.seqNo == Count(events[..i], StreamOf(events[i].event))
      && exists rest :: Identified(events[i].event, rest)
  }

  ghost predicate Tracks(w: Streams, events: seq<Numbered>)
  {
    forall s :: NumberOf(w.seqs, s) == Count(events, s)
  }

  lemma ProperStep(events: seq<Numbered>, n: Numbered, rest: string)
    requires Proper(events) && n.event.seqNo == Count(events, StreamOf(n.event)) && Identified(n.event, rest)
    ensures Proper(events + [n])
    ensures forall s :: Count(events + [n], s) == Count(events, s) + if StreamOf(n.event) == s then 1 else 0
  {
    hide Identified;
    var longer := events + [n];
    assert longer[..|events|] == events;
    forall i | 0 <= i < |events|
      ensures longer[i].event.seqNo == Count(longer[..i], StreamOf(longer[i].event))
      ensures exists rest :: Identified(longer[i].event, rest)
    {
      assert longer[..i] == events[..i] && longer[i] == events[i];
    }
  }

  lemma StampIdentified(d: Draft, workflowId: string, n: nat)
    ensures Identified(Stamped(d, workflowId, n), workflowId + "|" + d.event.recordUuid + "|" + d.disc)
    ensures StreamOf(Stamped(d, workflowId, n)) == StreamOf(d.event) && Stamped(d, workflowId, n).seqNo == n
  {
  }

  lemma {:induction false} NumberAllProper(before: seq<Numbered>, f: SourceFile, a: Anchor, drafts: seq<Draft>,
                                           stream: string)
    requires Proper(before)
    requires forall d :: d in drafts ==> StreamOf(d.event) == stream
    ensures var all := before + NumberAll(f, a, drafts, Count(before, stream));
            Proper(all) && forall s :: Count(all, s) == Count(before, s) + if s == stream then |drafts| else 0
  {
    hide Proper, Stamped, Identified;
    var n := Count(before, stream);
    if drafts == [] {
      assert before + NumberAll(f, a, drafts, n) == before;
    } else {
      var k := |drafts| - 1;
      NumberAllProper(before, f, a, drafts[..k], stream);
      var d := drafts[k];
      StampIdentified(d, f.workflowId, n + k);
      assert |NumberAll(f, a, drafts[..k], n)| == k;
      var last := Numbered(f, a, Stamped(d, f.workflowId, n + k));
      ProperStep(before + NumberAll(f, a, drafts[..k], n), last,
                 f.workflowId + "|" + d.event.recordUuid + "|" + d.disc);
      assert before + NumberAll(f, a, drafts, n) == before + NumberAll(f, a, drafts[..k], n) + [last];
    }
  }

  lemma RecordProper(before: seq<Numbered>, f: SourceFile, fork: Option<Fork>, st: FileState, w: Streams, r: Record)
    requires Proper(before) && Tracks(w, before)
    ensures var step := WalkRecord(f, fork, st, w, r);
            Proper(before + step.events) && Tracks(step.streams, before + step.events)
  {
    hide Proper, Build, AnchorOf, StartDraft, PartDrafts, NumberAll, Count, Base;
    var stream := StreamKey(r.sessionId, st.agentId);
    var marks := if r.parentMark != "" then w.marks[stream := r.parentMark] else w.marks;
    var base := Base(r, st.agentId, MarkOf(marks, stream), st.clock);
    BaseStream(r, st.agentId, MarkOf(marks, stream), st.clock);
    OneStream(base, st.kind, fork, Build(r));
    var drafts := Drafts(st, r, MarkOf(marks, stream), fork);
    assert NumberOf(w.seqs, stream) == Count(before, stream);
    NumberAllProper(before, f, AnchorOf(r), drafts, stream);
  }

  lemma LineProper(before: seq<Numbered>, f: SourceFile, fork: Option<Fork>, st: FileState, w: Streams, l: Line)
    requires Proper(before) && Tracks(w, before)
    ensures var step := WalkLine(f, fork, st, w, l);
            Proper(before + step.events) && Tracks(step.streams, before + step.events)
  {
    hide Proper, WalkRecord, Count, Attributed, Ticked, Clocked;
    assert before + [] == before;
    if Usable(l) && !Misfiled(st, l.rec) && Clocked(st, l.rec) {
      RecordProper(before, f, fork, Ticked(Attributed(f, st, l.rec), l.rec), w, l.rec);
    }
  }

  lemma {:induction false} LinesProper(before: seq<Numbered>, f: SourceFile, fork: Option<Fork>, w: Streams,
                                       lines: seq<Line>)
    requires Proper(before) && Tracks(w, before)
    ensures var step := WalkLines(f, fork, w, lines);
            Proper(before + step.events) && Tracks(step.streams, before + step.events)
  {
    hide Proper, WalkLine, Count, Tracks;
    if lines == [] {
      assert before + [] == before;
    } else {
      var k := |lines| - 1;
      LinesProper(before, f, fork, w, lines[..k]);
      var most := WalkLines(f, fork, w, lines[..k]);
      LineProper(before + most.events, f, fork, most.st, most.streams, lines[k]);
      var last := WalkLine(f, fork, most.st, most.streams, lines[k]);
      assert before + (most.events + last.events) == before + most.events + last.events;
    }
  }

  /** In every walk each event is numbered by its place in its own stream. */
  lemma {:induction false} NumbersArePositions(files: seq<SourceFile>, forks: map<string, Fork>)
    ensures Proper(WalkAll(files, forks).0) && Tracks(WalkAll(files, forks).1, WalkAll(files, forks).0)
  {
    if files != [] {
      hide Proper, WalkLines, Count, Tracks;
      var k := |files| - 1;
      NumbersArePositions(files[..k], forks);
      var (events, w) := WalkAll(files[..k], forks);
      LinesProper(events, files[k], ForkOf(forks, files[k].path), w, files[k].lines);
      assert events + [] == events;
    }
  }

  // ------------------------------------------------------------ distinct ids

  /** Session ids hold no NUL and agent ids no bar: the separators the id is built with. */
  predicate Plain(e: Event)
  {
    NUL !in e.sessionId && '|' !in e.agentId
  }

  lemma {:induction false} CountGrows(events: seq<Numbered>, i: nat, j: nat, stream: string)
    requires i <= j <= |events|
    ensures Count(events[..i], stream) <= Count(events[..j], stream)
    decreases j
  {
    if i < j {
      assert events[..j][..j - 1] == events[..j - 1];
      CountGrows(events, i, j - 1, stream);
    }
  }

  lemma SameIdSameStream(e: Event, rest: string, e': Event, rest': string)
    requires Plain(e) && Plain(e') && Identified(e, rest) && Identified(e', rest')
    requires e.id == e'.id
    ensures StreamOf(e) == StreamOf(e') && e.seqNo == e'.seqNo
  {
    IdTextInjective(e.sessionId, e.seqNo, TypeText(e.kind), e.agentId + ['|'] + rest,
                    e'.sessionId, e'.seqNo, TypeText(e'.kind), e'.agentId + ['|'] + rest');
    SplitAtFirst(e.agentId, rest, e'.agentId, rest', '|');
  }

  lemma CountSteps(events: seq<Numbered>, i: nat)
    requires i < |events|
    ensures Count(events[..i + 1], StreamOf(events[i].event)) == Count(events[..i], StreamOf(events[i].event)) + 1
  {
    hide StreamOf;
    assert events[..i + 1][..i] == events[..i];
  }

  lemma ProperDistinct(events: seq<Numbered>, i: nat, j: nat)
    requires Proper(events) && i < j < |events|
    requires Plain(events[i].event) && Plain(events[j].event)
    ensures events[i].event.id != events[j].event.id
  {
    hide Identified, Plain, StreamOf, Count;
    var e, e' := events[i].event, events[j].event;
    var rest :| Identified(e, rest);
    var rest' :| Identified(e', rest');
    if e.id == e'.id {
      SameIdSameStream(e, rest, e', rest');
      CountSteps(events, i);
      CountGrows(events, i + 1, j, StreamOf(e));
    }
  }

  /** No walk gives two events one id. */
  lemma IdsAreDistinct(files: seq<SourceFile>, forks: map<string, Fork>, i: nat, j: nat)
    requires i < j < |WalkAll(files, forks).0|
    requires Plain(WalkAll(files, forks).0[i].event) && Plain(WalkAll(files, forks).0[j].event)
    ensures WalkAll(files, forks).0[i].event.id != WalkAll(files, forks).0[j].event.id
  {
    hide WalkAll, Plain, Proper;
    NumbersArePositions(files, forks);
    ProperDistinct(WalkAll(files, forks).0, i, j);
  }

  // ---------------------------------------------------------------- filters

  /** b with some elements left out. */
  ghost predicate Subsequence(a: seq<Event>, b: seq<Event>)
    decreases |b|
  {
    a == []
    || (b != [] && (Subsequence(a, b[..|b| - 1])
                    || (a[|a| - 1] == b[|b| - 1] && Subsequence(a[..|a| - 1], b[..|b| - 1]))))
  }

  ghost predicate Wider(o: Filters, o': Filters)
  {
    forall f, a :: Heard(o, f, a) ==> Heard(o', f, a)
  }

  lemma {:induction false} WiderKeepsMore(o: Filters, o': Filters, events: seq<Numbered>)
    requires Wider(o, o')
    ensures Subsequence(Kept(o, events), Kept(o', events))
  {
    hide Heard;
    if events != [] {
      var k := |events| - 1;
      var last := events[k];
      WiderKeepsMore(o, o', events[..k]);
      var was, was' := Kept(o, events[..k]), Kept(o', events[..k]);
      if Heard(o', last.file, last.anchor) {
        var longer := was' + [last.event];
        assert Kept(o', events) == longer && longer[..|was'|] == was';
        if Heard(o, last.file, last.anchor) {
          assert Kept(o, events) == was + [last.event] && (was + [last.event])[..|was|] == was;
        } else {
          assert Kept(o, events) == was;
        }
      } else {
        assert !Heard(o, last.file, last.anchor);
        assert Kept(o, events) == was && Kept(o', events) == was';
      }
    }
  }

  /** Importing a wider range of the same files adds events and changes none, ids included. */
  lemma WideningOnlyAdds(o: Filters, o': Filters, files: seq<SourceFile>, forks: map<string, Fork>)
    requires Wider(o, o') && o.session == o'.session
    ensures Subsequence(Kept(o, WalkAll(Belonging(files, o.session), forks).0),
                        Kept(o', WalkAll(Belonging(files, o'.session), forks).0))
  {
    WiderKeepsMore(o, o', WalkAll(Belonging(files, o.session), forks).0);
  }

  // ------------------------------------------------------- one named session

  /** Every usable record carries the session the file's path names. */
  predicate Consistent(f: SourceFile)
  {
    NUL !in f.owner && forall i :: 0 <= i < |f.lines| && Usable(f.lines[i]) ==> f.lines[i].rec.sessionId == f.owner
  }

  /** The two states number and mark the session's streams alike. */
  ghost predicate Agree(w: Streams, w': Streams, session: string)
  {
    forall agentId ::
      && NumberOf(w.seqs, StreamKey(session, agentId)) == NumberOf(w'.seqs, StreamKey(session, agentId))
      && MarkOf(w.marks, StreamKey(session, agentId)) == MarkOf(w'.marks, StreamKey(session, agentId))
  }

  lemma OtherStream(session: string, agentId: string, session': string, agentId': string)
    requires session != session' && NUL !in session && NUL !in session'
    ensures StreamKey(session, agentId) != StreamKey(session', agentId')
  {
    if StreamKey(session, agentId) == StreamKey(session', agentId') {
      SplitAtFirst(session, agentId, session', agentId', NUL);
    }
  }

  /** The events of the files a session owns, in order. */
  ghost function OwnedBy(events: seq<Numbered>, session: string): seq<Numbered>
  {
    if events == [] then []
    else
      var k := |events| - 1;
      OwnedBy(events[..k], session) + if events[k].file.owner == session then [events[k]] else []
  }

  lemma {:induction false} OwnedAppend(a: seq<Numbered>, b: seq<Numbered>, session: string)
    ensures OwnedBy(a + b, session) == OwnedBy(a, session) + OwnedBy(b, session)
  {
    if b == [] {
      assert a + b == a;
    } else {
      var k := |b| - 1;
      assert (a + b)[..|a + b| - 1] == a + b[..k];
      OwnedAppend(a, b[..k], session);
    }
  }

  lemma {:induction false} OwnedOfOneFile(events: seq<Numbered>, f: SourceFile, session: string)
    requires forall n :: n in events ==> n.file == f
    ensures OwnedBy(events, session) == if f.owner == session then events else []
  {
    if events != [] { OwnedOfOneFile(events[..|events| - 1], f, session); }
  }

  lemma {:induction false} NumberAllFile(f: SourceFile, a: Anchor, drafts: seq<Draft>, n: nat)
    ensures forall e :: e in NumberAll(f, a, drafts, n) ==> e.file == f
  {
    if drafts != [] { NumberAllFile(f, a, drafts[..|drafts| - 1], n); }
  }

  lemma {:induction false} LinesFile(f: SourceFile, fork: Option<Fork>, w: Streams, lines: seq<Line>)
    ensures forall e :: e in WalkLines(f, fork, w, lines).events ==> e.file == f
  {
    if lines != [] {
      var k := |lines| - 1;
      LinesFile(f, fork, w, lines[..k]);
      var most := WalkLines(f, fork, w, lines[..k]);
      forall e | e in WalkLine(f, fork, most.st, most.streams, lines[k]).events ensures e.file == f {
        hide Attributed, Ticked, AnchorOf, Drafts, NumberAll;
        var r, now := lines[k].rec, Ticked(Attributed(f, most.st, lines[k].rec), lines[k].rec);
        var stream := StreamKey(r.sessionId, now.agentId);
        var marks := if r.parentMark != "" then most.streams.marks[stream := r.parentMark] else most.streams.marks;
        NumberAllFile(f, AnchorOf(r), Drafts(now, r, MarkOf(marks, stream), fork), NumberOf(most.streams.seqs, stream));
      }
    }
  }

  lemma FileOfEvents(f: SourceFile, forks: map<string, Fork>, w: Streams, session: string)
    ensures OwnedBy(WalkFile(f, forks, w).events, session)
            == if f.owner == session then WalkFile(f, forks, w).events else []
  {
    hide WalkLines, OwnedBy;
    LinesFile(f, ForkOf(forks, f.path), w, f.lines);
    OwnedOfOneFile(WalkFile(f, forks, w).events, f, session);
  }

  const NOTHING := Streams(map[], map[])

  /** The streams a file's records go to, whatever was walked before it. */
  function Used(f: SourceFile): set<string>
  {
    WalkFile(f, map[], NOTHING).st.started
  }

  /** The streams used by files that belong to other sessions. */
  function UsedByOthers(files: seq<SourceFile>, session: string): set<string>
  {
    if files == [] then {}
    else
      var k := |files| - 1;
      UsedByOthers(files[..k], session) + if files[k].owner == session then {} else Used(files[k])
  }

  /** No file of the session uses a stream that another session's file walked before it has used. */
  ghost predicate Apart(files: seq<SourceFile>, session: string)
  {
    forall i, j :: 0 <= i < j < |files| && files[i].owner != session && files[j].owner == session ==>
      Used(files[i]) !! Used(files[j])
  }

  lemma {:induction false} UsedByOthersHas(files: seq<SourceFile>, session: string, s: string)
    ensures s in UsedByOthers(files, session)
       <==> exists i :: 0 <= i < |files| && files[i].owner != session && s in Used(files[i])
  {
    hide Used;
    if files != [] {
      var k := |files| - 1;
      UsedByOthersHas(files[..k], session, s);
      if i :| 0 <= i < |files| && files[i].owner != session && s in Used(files[i]) {
        if i < k { assert files[..k][i] == files[i]; }
      }
      if i :| 0 <= i < k && files[..k][i].owner != session && s in Used(files[..k][i]) {
        assert files[i] == files[..k][i];
      }
    }
  }

  lemma ApartStep(files: seq<SourceFile>, f: SourceFile, session: string)
    ensures Apart(files + [f], session)
       <==> Apart(files, session) && (f.owner == session ==> UsedByOthers(files, session) !! Used(f))
  {
    hide Used, UsedByOthers;
    var k, more := |files|, files + [f];
    assert forall i :: 0 <= i < k ==> more[i] == files[i];
    assert more[k] == f;
    if Apart(more, session) && f.owner == session {
      forall s | s in UsedByOthers(files, session) ensures s !in Used(f) {
        UsedByOthersHas(files, session, s);
        var i :| 0 <= i < k && files[i].owner != session && s in Used(files[i]);
        assert Used(more[i]) !! Used(more[k]);
      }
    }
    if Apart(files, session) && f.owner == session && UsedByOthers(files, session) !! Used(f) {
      forall i | 0 <= i < k && files[i].owner != session ensures Used(files[i]) !! Used(f) {
        forall s | s in Used(files[i]) ensures s !in Used(f) { UsedByOthersHas(files, session, s); }
      }
    }
    ApartPrefix(files, f, session);
  }

  lemma ApartPrefix(files: seq<SourceFile>, f: SourceFile, session: string)
    ensures Apart(files + [f], session) ==> Apart(files, session)
  {
    hide Used;
    var more := files + [f];
    assert forall i :: 0 <= i < |files| ==> more[i] == files[i];
  }

  ghost predicate HasStream(events: seq<Numbered>, stream: string)
  {
    exists i :: 0 <= i < |events| && StreamOf(events[i].event) == stream
  }

  /** Outside the streams named, the two states number and mark alike. */
  ghost predicate AgreeOutside(w: Streams, w': Streams, streams: set<string>)
  {
    forall s :: s !in streams ==>
      NumberOf(w.seqs, s) == NumberOf(w'.seqs, s) && MarkOf(w.marks, s) == MarkOf(w'.marks, s)
  }

  lemma {:induction false} NumberAllStream(f: SourceFile, a: Anchor, drafts: seq<Draft>, n: nat, stream: string)
    requires forall d :: d in drafts ==> StreamOf(d.event) == stream
    ensures forall e :: e in NumberAll(f, a, drafts, n) ==> StreamOf(e.event) == stream
  {
    hide Stamped, StreamOf;
    if drafts != [] {
      var k := |drafts| - 1;
      NumberAllStream(f, a, drafts[..k], n, stream);
      StampKeepsStream(drafts[k], f.workflowId, n + k);
    }
  }

  /** What a record does: events of its own stream alone, at least one when it opens it. */
  lemma RecordTouches(f: SourceFile, fork: Option<Fork>, st: FileState, w: Streams, r: Record)
    ensures
      var step, stream := WalkRecord(f, fork, st, w, r), StreamKey(r.sessionId, st.agentId);
      && step.st == st.(started := st.started + {stream})
      && (forall e :: e in step.events ==> StreamOf(e.event) == stream)
      && (stream !in st.started ==> step.events != [])
      && |step.events| == |Build(r)| + (if stream in st.started then 0 else 1)
      && AgreeOutside(w, step.streams, {stream})
  {
    hide Build, AnchorOf, StartDraft, PartDrafts, NumberAll, Base, StreamOf;
    var stream := StreamKey(r.sessionId, st.agentId);
    var marks := if r.parentMark != "" then w.marks[stream := r.parentMark] else w.marks;
    var base := Base(r, st.agentId, MarkOf(marks, stream), st.clock);
    BaseStream(r, st.agentId, MarkOf(marks, stream), st.clock);
    OneStream(base, st.kind, fork, Build(r));
    NumberAllStream(f, AnchorOf(r), Drafts(st, r, MarkOf(marks, stream), fork), NumberOf(w.seqs, stream), stream);
  }

  /** The streams started are those the events belong to, and no other is numbered or marked anew. */
  ghost predicate Touches(started: set<string>, events: seq<Numbered>, w: Streams, after: Streams)
  {
    && (forall s :: s in started <==> HasStream(events, s))
    && AgreeOutside(w, after, started)
  }

  lemma TouchStep(f: SourceFile, fork: Option<Fork>, st: FileState, events: seq<Numbered>, w: Streams, mid: Streams,
                  r: Record)
    requires Touches(st.started, events, w, mid)
    ensures var step := WalkRecord(f, fork, st, mid, r);
            Touches(step.st.started, events + step.events, w, step.streams)
  {
    var step, stream := WalkRecord(f, fork, st, mid, r), StreamKey(r.sessionId, st.agentId);
    RecordTouches(f, fork, st, mid, r);
    hide WalkRecord, StreamKey, StreamOf;
    var all := events + step.events;
    forall s ensures s in step.st.started <==> HasStream(all, s) {
      if s in st.started {
        var i :| 0 <= i < |events| && StreamOf(events[i].event) == s;
        assert all[i] == events[i];
      } else if s == stream {
        assert all[|events|] == step.events[0];
        assert step.events[0] in step.events;
      }
      if i :| 0 <= i < |all| && StreamOf(all[i].event) == s {
        if i < |events| { assert all[i] == events[i]; } else { assert all[i] in step.events; }
      }
    }
  }

  lemma {:induction false} LinesTouch(f: SourceFile, fork: Option<Fork>, w: Streams, lines: seq<Line>)
    ensures var step := WalkLines(f, fork, w, lines); Touches(step.st.started, step.events, w, step.streams)
  {
    if lines != [] {
      var k := |lines| - 1;
      LinesTouch(f, fork, w, lines[..k]);
      LinesStep(f, fork, w, lines);
      hide WalkLines, WalkLine, WalkRecord, Touches, Accepts, Within;
      var most, l := WalkLines(f, fork, w, lines[..k]), lines[k];
      LineIs(f, fork, most.st, most.streams, l);
      if Accepts(most.st, l) {
        WithinStarted(f, most.st, l.rec);
        TouchStep(f, fork, Within(f, most.st, l.rec), most.events, w, most.streams, l.rec);
      } else {
        assert most.events + [] == most.events;
      }
    }
  }

  /** What a file does to its own state, and how much it emits, does not depend on what was walked before. */
  lemma {:induction false} SameShape(f: SourceFile, fork: Option<Fork>, fork': Option<Fork>, w: Streams, w': Streams,
                                     lines: seq<Line>)
    ensures
      var a, b := WalkLines(f, fork, w, lines), WalkLines(f, fork', w', lines);
      a.st == b.st && |a.events| == |b.events|
  {
    if lines != [] {
      var k := |lines| - 1;
      SameShape(f, fork, fork', w, w', lines[..k]);
      LinesStep(f, fork, w, lines);
      LinesStep(f, fork', w', lines);
      hide WalkLines, WalkLine, WalkRecord, Accepts, Within, Build, StreamKey;
      var a, b, l := WalkLines(f, fork, w, lines[..k]), WalkLines(f, fork', w', lines[..k]), lines[k];
      LineIs(f, fork, a.st, a.streams, l);
      LineIs(f, fork', b.st, b.streams, l);
      if Accepts(a.st, l) {
        RecordTouches(f, fork, Within(f, a.st, l.rec), a.streams, l.rec);
        RecordTouches(f, fork', Within(f, a.st, l.rec), b.streams, l.rec);
      }
    }
  }

  /** A record of a stream the two walks agree on. */
  lemma RecordAlike(f: SourceFile, fork: Option<Fork>, st: FileState, w: Streams, w': Streams, r: Record,
                    others: set<string>)
    requires AgreeOutside(w, w', others) && StreamKey(r.sessionId, st.agentId) !in others
    ensures var a, b := WalkRecord(f, fork, st, w, r), WalkRecord(f, fork, st, w', r);
            a.events == b.events && AgreeOutside(a.streams, b.streams, others)
  {
    hide AnchorOf, Drafts, NumberAll, StreamKey;
  }

  lemma StartedGrows(f: SourceFile, fork: Option<Fork>, st: FileState, w: Streams, r: Record)
    ensures WalkRecord(f, fork, st, w, r).st.started == st.started + {StreamKey(r.sessionId, st.agentId)}
  {
    hide AnchorOf, Drafts, NumberAll, StreamKey;
  }

  lemma {:induction false} LinesAlike(f: SourceFile, fork: Option<Fork>, w: Streams, w': Streams, lines: seq<Line>,
                                      others: set<string>)
    requires AgreeOutside(w, w', others) && others !! WalkLines(f, fork, w, lines).st.started
    ensures var a, b := WalkLines(f, fork, w, lines), WalkLines(f, fork, w', lines);
            a.events == b.events && AgreeOutside(a.streams, b.streams, others)
  {
    if lines != [] {
      var k := |lines| - 1;
      LinesStep(f, fork, w, lines);
      LinesStep(f, fork, w', lines);
      SameShape(f, fork, fork, w, w', lines[..k]);
      hide WalkLine, WalkRecord, Accepts, Within, AgreeOutside, StreamKey;
      var a, b, l := WalkLines(f, fork, w, lines[..k]), WalkLines(f, fork, w', lines[..k]), lines[k];
      LineIs(f, fork, a.st, a.streams, l);
      LineIs(f, fork, b.st, b.streams, l);
      if Accepts(a.st, l) {
        WithinStarted(f, a.st, l.rec);
        StartedGrows(f, fork, Within(f, a.st, l.rec), a.streams, l.rec);
        LinesAlike(f, fork, w, w', lines[..k], others);
        RecordAlike(f, fork, Within(f, a.st, l.rec), a.streams, b.streams, l.rec, others);
      } else {
        LinesAlike(f, fork, w, w', lines[..k], others);
      }
    }
  }

  // ------------------------------------------------------------- whole files

  lemma FileTouches(f: SourceFile, forks: map<string, Fork>, w: Streams)
    ensures var step := WalkFile(f, forks, w); Touches(Used(f), step.events, w, step.streams)
  {
    hide WalkLines;
    if f.kind != JournalFile {
      LinesTouch(f, ForkOf(forks, f.path), w, f.lines);
      SameShape(f, ForkOf(forks, f.path), ForkOf(map[], f.path), w, NOTHING, f.lines);
    }
  }

  lemma FileAlike(f: SourceFile, forks: map<string, Fork>, w: Streams, w': Streams, others: set<string>)
    ensures |WalkFile(f, forks, w).events| == |WalkFile(f, forks, w').events|
    ensures
      AgreeOutside(w, w', others) && others !! Used(f) ==>
        var a, b := WalkFile(f, forks, w), WalkFile(f, forks, w');
        a.events == b.events && AgreeOutside(a.streams, b.streams, others)
  {
    hide WalkLines, AgreeOutside;
    if f.kind != JournalFile {
      var fork := ForkOf(forks, f.path);
      SameShape(f, fork, fork, w, w', f.lines);
      SameShape(f, fork, ForkOf(map[], f.path), w, NOTHING, f.lines);
      if AgreeOutside(w, w', others) && others !! Used(f) { LinesAlike(f, fork, w, w', f.lines, others); }
    }
  }

  /** Another session's file disturbs only the streams it uses. */
  lemma ForeignDisturbs(f: SourceFile, forks: map<string, Fork>, w: Streams, w': Streams, others: set<string>)
    requires AgreeOutside(w, w', others)
    ensures AgreeOutside(WalkFile(f, forks, w).streams, w', others + Used(f))
  {
    FileTouches(f, forks, w);
    hide WalkFile, Used;
  }

  // ------------------------------------------------------ counting the streams

  lemma {:induction false} CountAppend(a: seq<Numbered>, b: seq<Numbered>, stream: string)
    ensures Count(a + b, stream) == Count(a, stream) + Count(b, stream)
  {
    if b == [] {
      assert a + b == a;
    } else {
      var k := |b| - 1;
      assert (a + b)[..|a + b| - 1] == a + b[..k];
      CountAppend(a, b[..k], stream);
    }
  }

  lemma {:induction false} CountPositive(events: seq<Numbered>, stream: string)
    requires HasStream(events, stream)
    ensures Count(events, stream) > 0
  {
    hide StreamOf;
    var k := |events| - 1;
    if StreamOf(events[k].event) != stream {
      var i :| 0 <= i < |events| && StreamOf(events[i].event) == stream;
      assert events[..k][i] == events[i];
      CountPositive(events[..k], stream);
    }
  }

  lemma {:induction false} OthersCount(files: seq<SourceFile>, forks: map<string, Fork>, session: string,
                                       stream: string)
    ensures
      var events := WalkAll(files, forks).0;
      && Count(OwnedBy(events, session), stream) <= Count(events, stream)
      && (stream in UsedByOthers(files, session) ==> Count(OwnedBy(events, session), stream) < Count(events, stream))
  {
    hide WalkFile, Used, Touches;
    if files != [] {
      var k := |files| - 1;
      OthersCount(files[..k], forks, session, stream);
      var (events, w) := WalkAll(files[..k], forks);
      var step := WalkFile(files[k], forks, w);
      OwnedAppend(events, step.events, session);
      FileOfEvents(files[k], forks, w, session);
      CountAppend(events, step.events, stream);
      CountAppend(OwnedBy(events, session), OwnedBy(step.events, session), stream);
      FileTouches(files[k], forks, w);
      if stream in Used(files[k]) {
        UsedIsCounted(files[k], step.events, w, step.streams, stream);
      }
      hide OwnedBy;
      assert Count([], stream) == 0;
    }
  }

  lemma UsedIsCounted(f: SourceFile, events: seq<Numbered>, w: Streams, after: Streams, stream: string)
    requires Touches(Used(f), events, w, after) && stream in Used(f)
    ensures HasStream(events, stream) && Count(events, stream) > 0
  {
    hide Used;
    CountPositive(events, stream);
  }

  /** An event of a walk is numbered by what came before its file and before it in its file. */
  lemma NumberInFile(before: seq<Numbered>, events: seq<Numbered>, i: nat)
    requires Proper(before + events) && i < |events|
    ensures var s := StreamOf(events[i].event); events[i].event.seqNo == Count(before, s) + Count(events[..i], s)
  {
    hide Identified, StreamOf;
    var all := before + events;
    assert all[|before| + i] == events[i] && all[..|before| + i] == before + events[..i];
    CountAppend(before, events[..i], StreamOf(events[i].event));
  }

  /** A stream of the file that others used first is numbered differently by the two walks. */
  lemma SharedStreamRenumbers(files: seq<SourceFile>, f: SourceFile, forks: map<string, Fork>, session: string,
                              stream: string)
    requires WalkAll(Belonging(files, session), forks).0 == OwnedBy(WalkAll(files, forks).0, session)
    requires stream in Used(f) && stream in UsedByOthers(files, session)
    ensures WalkFile(f, forks, WalkAll(files, forks).1).events
            != WalkFile(f, forks, WalkAll(Belonging(files, session), forks).1).events
  {
    var mine := Belonging(files, session);
    var (events, w) := WalkAll(files, forks);
    var (own, w') := WalkAll(mine, forks);
    hide WalkAll, WalkFile, Used, UsedByOthers, OwnedBy, Belonging, Proper, Touches;
    var a, b := WalkFile(f, forks, w), WalkFile(f, forks, w');
    OthersCount(files, forks, session, stream);
    FileTouches(f, forks, w);
    UsedIsCounted(f, a.events, w, a.streams, stream);
    NumbersArePositions(files + [f], forks);
    WalkAllStep(files, f, forks);
    NumbersArePositions(mine + [f], forks);
    WalkAllStep(mine, f, forks);
    var i :| 0 <= i < |a.events| && StreamOf(a.events[i].event) == stream;
    NumberInFile(events, a.events, i);
    if a.events == b.events { NumberInFile(own, b.events, i); }
  }

  // ---------------------------------------------------------------- the theorem

  lemma BelongingStepOne(files: seq<SourceFile>, f: SourceFile, session: string)
    requires session != ""
    ensures Belonging(files + [f], session)
            == if f.owner == session then Belonging(files, session) + [f] else Belonging(files, session)
  {
    assert (files + [f])[..|files|] == files;
  }

  lemma UsedByOthersStep(files: seq<SourceFile>, f: SourceFile, session: string)
    ensures UsedByOthers(files + [f], session)
            == if f.owner == session then UsedByOthers(files, session) else UsedByOthers(files, session) + Used(f)
  {
    hide Used;
    assert (files + [f])[..|files|] == files;
  }

  /** The walk of one session's files and what the whole walk says of them. */
  ghost predicate NamedAgrees(files: seq<SourceFile>, forks: map<string, Fork>, session: string)
  {
    WalkAll(Belonging(files, session), forks).0 == OwnedBy(WalkAll(files, forks).0, session)
  }

  ghost predicate NamedInvariant(files: seq<SourceFile>, forks: map<string, Fork>, session: string)
  {
    && |WalkAll(Belonging(files, session), forks).0| == |OwnedBy(WalkAll(files, forks).0, session)|
    && (NamedAgrees(files, forks, session) <==> Apart(files, session))
    && (Apart(files, session) ==>
          AgreeOutside(WalkAll(files, forks).1, WalkAll(Belonging(files, session), forks).1,
                       UsedByOthers(files, session)))
  }

  lemma OwnedFileStep(files: seq<SourceFile>, f: SourceFile, forks: map<string, Fork>, session: string)
    requires session != "" && f.owner == session && NamedInvariant(files, forks, session)
    ensures NamedInvariant(files + [f], forks, session)
  {
    hide WalkAll, WalkFile, Used, UsedByOthers, OwnedBy, Belonging, Apart, AgreeOutside;
    var mine := Belonging(files, session);
    var (events, w) := WalkAll(files, forks);
    var (own, w') := WalkAll(mine, forks);
    var a, b := WalkFile(f, forks, w), WalkFile(f, forks, w');
    BelongingStepOne(files, f, session);
    UsedByOthersStep(files, f, session);
    ApartStep(files, f, session);
    WalkAllStep(files, f, forks);
    WalkAllStep(mine, f, forks);
    OwnedAppend(events, a.events, session);
    FileOfEvents(f, forks, w, session);
    FileAlike(f, forks, w, w', UsedByOthers(files, session));
    var owned := OwnedBy(events, session);
    assert own + b.events == owned + a.events <==> own == owned && a.events == b.events by {
      assert (own + b.events)[..|own|] == own && (own + b.events)[|own|..] == b.events;
      assert (owned + a.events)[..|own|] == owned && (owned + a.events)[|own|..] == a.events;
    }
    if own == owned && a.events == b.events {
      forall s | s in Used(f) ensures s !in UsedByOthers(files, session) {
        if s in UsedByOthers(files, session) { SharedStreamRenumbers(files, f, forks, session, s); }
      }
    }
  }

  lemma ForeignFileStep(files: seq<SourceFile>, f: SourceFile, forks: map<string, Fork>, session: string)
    requires session != "" && f.owner != session && NamedInvariant(files, forks, session)
    ensures NamedInvariant(files + [f], forks, session)
  {
    hide WalkAll, WalkFile, Used, UsedByOthers, OwnedBy, Belonging, Apart, AgreeOutside;
    var (events, w) := WalkAll(files, forks);
    var w' := WalkAll(Belonging(files, session), forks).1;
    BelongingStepOne(files, f, session);
    UsedByOthersStep(files, f, session);
    ApartStep(files, f, session);
    WalkAllStep(files, f, forks);
    OwnedAppend(events, WalkFile(f, forks, w).events, session);
    FileOfEvents(f, forks, w, session);
    assert OwnedBy(events, session) + [] == OwnedBy(events, session);
    if Apart(files, session) { ForeignDisturbs(f, forks, w, w', UsedByOthers(files, session)); }
  }

  lemma NamedStart(forks: map<string, Fork>, session: string)
    ensures NamedInvariant([], forks, session)
  {
    WalkAllStart(forks);
    assert Belonging([], session) == [] && OwnedBy([], session) == [];
    hide WalkAll, OwnedBy, Belonging;
  }

  lemma {:induction false} NamedInvariantHolds(files: seq<SourceFile>, forks: map<string, Fork>, session: string)
    requires session != ""
    ensures NamedInvariant(files, forks, session)
  {
    hide NamedInvariant;
    if files == [] {
      NamedStart(forks, session);
    } else {
      var front, f := files[..|files| - 1], files[|files| - 1];
      NamedInvariantHolds(front, forks, session);
      assert files == front + [f];
      if f.owner == session {
        OwnedFileStep(front, f, forks, session);
      } else {
        ForeignFileStep(front, f, forks, session);
      }
    }
  }

  /**
   * Walking one session's files alone gives them the very events, numbers and ids of the walk over
   * everything exactly when no file of the session uses a stream that a file of another session,
   * walked before it, has used.
   */
  lemma NamedSessionExact(files: seq<SourceFile>, forks: map<string, Fork>, session: string)
    requires session != ""
    ensures WalkAll(Belonging(files, session), forks).0 == OwnedBy(WalkAll(files, forks).0, session)
       <==> Apart(files, session)
  {
    hide Apart, AgreeOutside;
    NamedInvariantHolds(files, forks, session);
  }

  /** The stream is one of this session's. */
  ghost predicate StreamIn(session: string, stream: string)
  {
    exists agentId :: stream == StreamKey(session, agentId)
  }

  lemma KeyIsIn(session: string, agentId: string)
    ensures StreamIn(session, StreamKey(session, agentId))
  {
  }

  lemma {:induction false} ConsistentStarts(f: SourceFile, lines: seq<Line>)
    requires forall i :: 0 <= i < |lines| && Usable(lines[i]) ==> lines[i].rec.sessionId == f.owner
    ensures forall s :: s in WalkLines(f, None, NOTHING, lines).st.started ==> StreamIn(f.owner, s)
  {
    if lines != [] {
      var k := |lines| - 1;
      ConsistentStarts(f, lines[..k]);
      LinesStep(f, None, NOTHING, lines);
      hide WalkLines, WalkLine, WalkRecord, Accepts, Within, StreamKey, StreamIn;
      var most, l := WalkLines(f, None, NOTHING, lines[..k]), lines[k];
      LineIs(f, None, most.st, most.streams, l);
      if Accepts(most.st, l) {
        var st := Within(f, most.st, l.rec);
        WithinStarted(f, most.st, l.rec);
        StartedGrows(f, None, st, most.streams, l.rec);
        AcceptsUsable(most.st, l);
        KeyIsIn(f.owner, st.agentId);
      }
    }
  }

  /** A consistent file of another session uses no stream of this one. */
  lemma ConsistentApart(f: SourceFile, session: string, agentId: string)
    requires Consistent(f) && f.owner != session && NUL !in session
    ensures StreamKey(session, agentId) !in Used(f)
  {
    hide StreamKey, WalkLines, Usable;
    if f.kind != JournalFile { ConsistentStarts(f, f.lines); }
    if StreamKey(session, agentId) in Used(f) {
      assert StreamIn(f.owner, StreamKey(session, agentId));
      var other :| StreamKey(session, agentId) == StreamKey(f.owner, other);
      OtherStream(session, agentId, f.owner, other);
    }
  }

  lemma ConsistentOwn(f: SourceFile, s: string)
    requires Consistent(f) && s in Used(f)
    ensures StreamIn(f.owner, s)
  {
    hide StreamKey, WalkLines, Usable;
    if f.kind != JournalFile { ConsistentStarts(f, f.lines); }
  }

  /** Files whose records carry the session their path names: the two walks agree, and go on alike. */
  lemma NamedSessionAgrees(files: seq<SourceFile>, forks: map<string, Fork>, session: string)
    requires session != "" && NUL !in session
    requires forall f :: f in files ==> Consistent(f)
    ensures WalkAll(Belonging(files, session), forks).0 == OwnedBy(WalkAll(files, forks).0, session)
    ensures Agree(WalkAll(Belonging(files, session), forks).1, WalkAll(files, forks).1, session)
  {
    hide Used, WalkAll, Consistent, UsedByOthers, StreamKey;
    forall i, j | 0 <= i < j < |files| && files[i].owner != session && files[j].owner == session
      ensures Used(files[i]) !! Used(files[j]) {
      forall s | s in Used(files[j]) ensures s !in Used(files[i]) {
        ConsistentOwn(files[j], s);
        var agentId :| s == StreamKey(session, agentId);
        ConsistentApart(files[i], session, agentId);
      }
    }
    NamedInvariantHolds(files, forks, session);
    forall agentId ensures StreamKey(session, agentId) !in UsedByOthers(files, session) {
      UsedByOthersHas(files, session, StreamKey(session, agentId));
      if i :| 0 <= i < |files| && files[i].owner != session && StreamKey(session, agentId) in Used(files[i]) {
        ConsistentApart(files[i], session, agentId);
      }
    }
  }

  // A record that opens a stream and says nothing.
  const OPENING := BLANK.(kind := "system", sessionId := "s", timestamp := Some(1))
  const STRAY := SourceFile("a", "x", SessionFile, "", "", "x", 1, 1, [Good(OPENING)])
  const OWN := SourceFile("b", "s", SessionFile, "", "", "s", 1, 1, [Good(OPENING)])

  lemma UsedByOpening(f: SourceFile)
    requires f == STRAY || f == OWN
    ensures Used(f) == {StreamKey("s", "")}
  {
    hide StreamKey, WalkRecord, WalkLine;
    assert f.lines[..0] == [] && ForkOf(map[], f.path) == None;
    assert !Ignored("system");
    assert WalkLines(f, None, NOTHING, []) == Walked([], Opened(f), NOTHING);
    LinesStep(f, None, NOTHING, f.lines);
    LineIs(f, None, Opened(f), NOTHING, Good(OPENING));
    StartedGrows(f, None, Within(f, Opened(f), OPENING), NOTHING, OPENING);
  }

  /**
   * A record of the session in another session's file renumbers it when that file sorts first, and
   * not when it sorts last.
   */
  lemma StrayRecordRenumbers()
    ensures !NamedAgrees([STRAY, OWN], map[], "s") && NamedAgrees([OWN, STRAY], map[], "s")
  {
    UsedByOpening(STRAY);
    UsedByOpening(OWN);
    hide Used, WalkAll, OwnedBy, Belonging, StreamKey;
    NamedSessionExact([STRAY, OWN], map[], "s");
    NamedSessionExact([OWN, STRAY], map[], "s");
    assert [STRAY, OWN][0] == STRAY && [STRAY, OWN][1] == OWN;
  }
}
