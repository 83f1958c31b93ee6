/**
 * The transcript walk: how records become numbered, identified events, and
 * why the filters that decide what is emitted cannot disturb the numbers.
 */
module Walker {
  import opened Events
  import opened Names
  import opened Encoding
  import opened Transcript

  datatype FileKind = SessionFile | AgentFile | JournalFile

  /** One transcript on disk. newest is the time of its last record, the zero time when none parses. */
  datatype SourceFile = SourceFile(
    path: string,
    stem: string,
    kind: FileKind,
    agentId: string,
    workflowId: string,
    /** The session belongsTo compares: the one the path names, or the one its head carries. */
    owner: string,
    newest: Time,
    modified: Time,
    lines: seq<Line>)

  datatype Fork = Fork(parentSession: string, prefixSeq: int)

  /** Walker-wide state: how many events each stream holds, and its compaction marker. */
  datatype Streams = Streams(seqs: map<string, nat>, marks: map<string, string>)

  /** The per-file accumulator. */
  datatype FileState = FileState(kind: FileKind, agentId: string, started: set<string>, clock: Time)

  function StreamKey(session: string, agentId: string): string
  {
    session + [NUL] + agentId
  }

  function StreamOf(e: Event): string
  {
    StreamKey(e.sessionId, e.agentId)
  }

  function NumberOf(seqs: map<string, nat>, stream: string): nat
  {
    if stream in seqs then seqs[stream] else 0
  }

  function MarkOf(marks: map<string, string>, stream: string): string
  {
    if stream in marks then marks[stream] else ""
  }

  // -------------------------------------------------------------- one record

  /** Neither damaged, nor bookkeeping, nor without a session. */
  predicate Usable(l: Line)
  {
    l.Good? && !Ignored(l.rec.kind) && l.rec.sessionId != ""
  }

  /** The record says it belongs to a subagent. */
  predicate Sidechain(r: Record)
  {
    r.isSidechain || r.agentId != ""
  }

  /** agentName. */
  function AgentName(agentId: string, stem: string): string
  {
    if agentId == "" then stem else if "agent-" <= agentId then agentId else "agent-" + agentId
  }

  /** A subagent's record on the first line that counts makes the whole file that subagent's. */
  function Attributed(f: SourceFile, st: FileState, r: Record): FileState
  {
    if st.kind == SessionFile && Sidechain(r) && st.started == {}
    then st.(kind := AgentFile, agentId := AgentName(r.agentId, f.stem))
    else st
  }

  /** After the first line that counts it is skipped instead. */
  predicate Misfiled(st: FileState, r: Record)
  {
    st.kind == SessionFile && Sidechain(r) && st.started != {}
  }

  predicate Clocked(st: FileState, r: Record)
  {
    r.timestamp.Some? || st.clock != ZERO_TIME
  }

  function Ticked(st: FileState, r: Record): FileState
  {
    if r.timestamp.Some? then st.(clock := r.timestamp.value) else st
  }

  /** The line's record goes on to build events. */
  predicate Accepts(st: FileState, l: Line)
  {
    Usable(l) && !Misfiled(st, l.rec) && Clocked(st, l.rec)
  }

  /** What every event of a record starts from. */
  function Base(r: Record, agentId: string, mark: string, at: Time): Event
  {
    Event("", 0, "claude_code", "transcript", Untyped, r.sessionId, "", agentId, r.promptId, "", r.uuid, mark, 0, 0, at,
          r.cwd, r.gitBranch, r.version, None, "", r.raw, map[])
  }

  /** An event before it is numbered, with the discriminator of its id. */
  datatype Draft = Draft(event: Event, disc: string)

  function StartDraft(base: Event, kind: FileKind, fork: Option<Fork>): Draft
  {
    var start := base.(kind := if kind == AgentFile then SubagentStart else SessionStarted);
    match fork
    case None => Draft(start, "start")
    case Some(k) => Draft(start.(parentSessionId := k.parentSession, forkPrefixSeq := k.prefixSeq), "start")
  }

  function PartDrafts(base: Event, parts: seq<Part>): (drafts: seq<Draft>)
    ensures |drafts| == |parts|
  {
    if parts == [] then []
    else
      var p := parts[|parts| - 1];
      PartDrafts(base, parts[..|parts| - 1])
      + [Draft(base.(kind := p.kind, toolUseId := p.toolUseId, usage := p.usage, text := p.text), p.disc)]
  }

  const CAPTURE_SCHEMA: nat := 4

  function Discriminator(e: Event, workflowId: string, disc: string): string
  {
    e.agentId + ['|'] + (workflowId + "|" + e.recordUuid + "|" + disc)
  }

  /** push: the number, and the text the id is the hash of. */
  function Stamped(d: Draft, workflowId: string, n: nat): Event
  {
    d.event.(seqNo := n, captureVersion := CAPTURE_SCHEMA,
             id := IdText(d.event.sessionId, n, TypeText(d.event.kind), Discriminator(d.event, workflowId, d.disc)))
  }

  /** A numbered event with the file and record it came from, which is what the filters look at. */
  datatype Numbered = Numbered(file: SourceFile, anchor: Anchor, event: Event)

  function NumberAll(f: SourceFile, a: Anchor, drafts: seq<Draft>, n: nat): (events: seq<Numbered>)
    ensures |events| == |drafts|
  {
    if drafts == [] then []
    else
      var k := |drafts| - 1;
      NumberAll(f, a, drafts[..k], n) + [Numbered(f, a, Stamped(drafts[k], f.workflowId, n + k))]
  }

  datatype Walked = Walked(events: seq<Numbered>, st: FileState, streams: Streams)

  /** The drafts of an accepted record, the start of its stream first. */
  function Drafts(st: FileState, r: Record, mark: string, fork: Option<Fork>): seq<Draft>
  {
    var base := Base(r, st.agentId, mark, st.clock);
    var begins := StreamKey(r.sessionId, st.agentId) !in st.started;
    (if begins then [StartDraft(base, st.kind, fork)] else []) + PartDrafts(base, Build(r))
  }

  /** The second half of line: a record with a stream and a clock becomes events. */
  function WalkRecord(f: SourceFile, fork: Option<Fork>, st: FileState, w: Streams, r: Record): Walked
  {
    var stream := StreamKey(r.sessionId, st.agentId);
    var marks := if r.parentMark != "" then w.marks[stream := r.parentMark] else w.marks;
    var drafts := Drafts(st, r, MarkOf(marks, stream), fork);
    var n := NumberOf(w.seqs, stream);
    Walked(NumberAll(f, AnchorOf(r), drafts, n),
           st.(started := st.started + {stream}),
           Streams(if drafts == [] then w.seqs else w.seqs[stream := n + |drafts|], marks))
  }

  /** line: everything one line does to the walk, before any filter. */
  function WalkLine(f: SourceFile, fork: Option<Fork>, st: FileState, w: Streams, l: Line): Walked
  {
    if !Usable(l) || Misfiled(st, l.rec) then Walked([], st, w)
    else
      var mine := Attributed(f, st, l.rec);
      if !Clocked(st, l.rec) then Walked([], mine, w)
      else WalkRecord(f, fork, Ticked(mine, l.rec), w, l.rec)
  }

  function Opened(f: SourceFile): FileState
  {
    FileState(f.kind, f.agentId, {}, ZERO_TIME)
  }

  function WalkLines(f: SourceFile, fork: Option<Fork>, w: Streams, lines: seq<Line>): Walked
  {
    if lines == [] then Walked([], Opened(f), w)
    else
      var k := |lines| - 1;
      var before := WalkLines(f, fork, w, lines[..k]);
      var last := WalkLine(f, fork, before.st, before.streams, lines[k]);
      last.(events := before.events + last.events)
  }

  function ForkOf(forks: map<string, Fork>, path: string): Option<Fork>
  {
    if path in forks then Some(forks[path]) else None
  }

  /** file: a journal has another schema and is skipped by name. */
  function WalkFile(f: SourceFile, forks: map<string, Fork>, w: Streams): Walked
  {
    if f.kind == JournalFile then Walked([], Opened(f), w)
    else WalkLines(f, ForkOf(forks, f.path), w, f.lines)
  }

  /** The whole walk over the sorted files, with nothing filtered. */
  function WalkAll(files: seq<SourceFile>, forks: map<string, Fork>): (seq<Numbered>, Streams)
  {
    if files == [] then ([], Streams(map[], map[]))
    else
      var k := |files| - 1;
      var (events, w) := WalkAll(files[..k], forks);
      var last := WalkFile(files[k], forks, w);
      (events + last.events, last.streams)
  }

  /** The state a record is built in. */
  function Within(f: SourceFile, st: FileState, r: Record): FileState
  {
    Ticked(Attributed(f, st, r), r)
  }

  lemma WithinStarted(f: SourceFile, st: FileState, r: Record)
    ensures Within(f, st, r).started == st.started
  {
  }

  lemma LineIs(f: SourceFile, fork: Option<Fork>, st: FileState, w: Streams, l: Line)
    ensures Accepts(st, l) ==> WalkLine(f, fork, st, w, l) == WalkRecord(f, fork, Within(f, st, l.rec), w, l.rec)
    ensures
      !Accepts(st, l) ==>
        var step := WalkLine(f, fork, st, w, l);
        && step.events == [] && step.streams == w && step.st.started == st.started
        && step.st == if Usable(l) && !Misfiled(st, l.rec) then Attributed(f, st, l.rec) else st
  {
    hide WalkRecord;
  }

  lemma LinesStep(f: SourceFile, fork: Option<Fork>, w: Streams, lines: seq<Line>)
    requires lines != []
    ensures
      var most := WalkLines(f, fork, w, lines[..|lines| - 1]);
      var last := WalkLine(f, fork, most.st, most.streams, lines[|lines| - 1]);
      WalkLines(f, fork, w, lines) == last.(events := most.events + last.events)
  {
    hide WalkLine;
  }

  lemma AcceptsUsable(st: FileState, l: Line)
    requires Accepts(st, l)
    ensures Usable(l)
  {
  }

  const NO_FILE := SourceFile("", "", JournalFile, "", "", "", ZERO_TIME, ZERO_TIME, [])

  const BLANK := Record("", "", None, "", "", "", false, false, false, "", "", "", "", "", "", [], None, false, "")

  lemma WalkAllStart(forks: map<string, Fork>)
    ensures WalkAll([], forks) == ([], Streams(map[], map[]))
  {
  }

  lemma WalkAllStep(files: seq<SourceFile>, f: SourceFile, forks: map<string, Fork>)
    ensures var before := WalkAll(files, forks);
            var last := WalkFile(f, forks, before.1);
            WalkAll(files + [f], forks) == (before.0 + last.events, last.streams)
  {
    hide WalkFile;
    assert (files + [f])[..|files|] == files;
  }

  lemma BaseStream(r: Record, agentId: string, mark: string, at: Time)
    ensures StreamOf(Base(r, agentId, mark, at)) == StreamKey(r.sessionId, agentId)
  {
  }

  lemma BelongingStep(files: seq<SourceFile>, i: nat, session: string)
    requires i < |files|
    ensures Belonging(files[..i + 1], session)
         == if BelongsTo(files[i], session) then Belonging(files[..i], session) + [files[i]]
            else Belonging(files[..i], session)
  {
    assert files[..i + 1][..i] == files[..i];
  }

  lemma StampKeepsStream(d: Draft, workflowId: string, n: nat)
    ensures StreamOf(Stamped(d, workflowId, n)) == StreamOf(d.event)
  {
  }

  lemma StreamsOfStep(events: seq<Event>, e: Event)
    ensures StreamsOf(events + [e]) == StreamsOf(events) + {StreamOf(e)}
  {
    assert (events + [e])[..|events|] == events;
  }

  /** Every draft of a record goes to the record's stream, under the record's uuid. */
  lemma {:induction false} OneStream(base: Event, kind: FileKind, fork: Option<Fork>, parts: seq<Part>)
    ensures StreamOf(StartDraft(base, kind, fork).event) == StreamOf(base)
    ensures forall d :: d in PartDrafts(base, parts) ==> StreamOf(d.event) == StreamOf(base)
  {
    if parts != [] { OneStream(base, kind, fork, parts[..|parts| - 1]); }
  }

  // ----------------------------------------------------------------- filters

  datatype Filters = Filters(
    since: Time,
    done: string -> bool,
    /** Empty for every session. */
    session: string,
    only: Anchor -> bool)

  predicate InWindow(o: Filters, f: SourceFile)
  {
    o.since == ZERO_TIME || (if f.newest != ZERO_TIME then f.newest >= o.since else f.modified >= o.since)
  }

  /** Nothing of the file is held back as a whole. A named session is walked regardless of window and journal. */
  predicate FileHeard(o: Filters, f: SourceFile)
  {
    o.session != "" || (!o.done(f.path) && InWindow(o, f))
  }

  predicate Heard(o: Filters, f: SourceFile, a: Anchor)
  {
    FileHeard(o, f) && o.only(a)
  }

  /** The events a filter lets through, in order. */
  function Kept(o: Filters, events: seq<Numbered>): seq<Event>
  {
    if events == [] then []
    else
      var last := events[|events| - 1];
      Kept(o, events[..|events| - 1]) + if Heard(o, last.file, last.anchor) then [last.event] else []
  }

  predicate BelongsTo(f: SourceFile, session: string)
  {
    session == "" || f.owner == session
  }

  function Belonging(files: seq<SourceFile>, session: string): seq<SourceFile>
  {
    if files == [] then []
    else
      var k := |files| - 1;
      Belonging(files[..k], session) + if BelongsTo(files[k], session) then [files[k]] else []
  }

  lemma {:induction false} KeptAppend(o: Filters, a: seq<Numbered>, b: seq<Numbered>)
    ensures Kept(o, a + b) == Kept(o, a) + Kept(o, b)
  {
    if b == [] {
      assert a + b == a;
    } else {
      var k := |b| - 1;
      assert (a + b)[..|a + b| - 1] == a + b[..k];
      KeptAppend(o, a, b[..k]);
    }
  }

  lemma NothingKept(o: Filters, f: SourceFile, a: Anchor, n: nat)
    ensures NumberAll(f, a, [], n) == [] && Kept(o, []) == []
  {
  }

  /** One more draft of a record is one more event when the record is heard. */
  lemma KeptNumbered(o: Filters, f: SourceFile, a: Anchor, drafts: seq<Draft>, n: nat, i: nat)
    requires i < |drafts|
    ensures Kept(o, NumberAll(f, a, drafts[..i + 1], n))
         == Kept(o, NumberAll(f, a, drafts[..i], n))
            + if Heard(o, f, a) then [Stamped(drafts[i], f.workflowId, n + i)] else []
  {
    hide Stamped, Heard;
    assert drafts[..i + 1][..i] == drafts[..i];
    var all := NumberAll(f, a, drafts[..i + 1], n);
    assert all[..|all| - 1] == NumberAll(f, a, drafts[..i], n);
  }

  /** The streams a sequence of events belongs to. */
  function StreamsOf(events: seq<Event>): set<string>
  {
    if events == [] then {}
    else StreamsOf(events[..|events| - 1]) + {StreamOf(events[|events| - 1])}
  }

  // -------------------------------------------------------------- the walker

  class Walk {
    const filters: Filters
    const forks: map<string, Fork>
    var seqs: map<string, nat>
    var marks: map<string, string>
    var seen: set<string>
    var sessions: nat
    var events: nat
    var out: seq<Event>
    var done: bool
    var outside: bool
    var mute: bool
    var st: FileState

    constructor (filters: Filters, forks: map<string, Fork>)
      ensures this.filters == filters && this.forks == forks
      ensures State() == Streams(map[], map[]) && out == [] && Tallied()
    {
      this.filters, this.forks := filters, forks;
      seqs, marks, seen, sessions, events, out := map[], map[], {}, 0, 0, [];
      done, outside, mute := false, false, false;
      st := FileState(SessionFile, "", {}, ZERO_TIME);
    }

    function State(): Streams
      reads this
    {
      Streams(seqs, marks)
    }

    /** The totals count what was emitted: its events, and the streams they belong to. */
    ghost predicate Tallied()
      reads this`out, this`seen, this`sessions, this`events
    {
      events == |out| && seen == StreamsOf(out) && sessions == |seen|
    }

    /** The number is taken, and the id made, whether or not the event is heard. */
    method Push(d: Draft, workflowId: string)
      requires Tallied()
      modifies this`seqs, this`out, this`seen, this`sessions, this`events
      ensures Tallied()
      ensures seqs == old(seqs)[StreamOf(d.event) := NumberOf(old(seqs), StreamOf(d.event)) + 1]
      ensures var e := Stamped(d, workflowId, NumberOf(old(seqs), StreamOf(d.event)));
              out == old(out) + if mute then [] else [e]
    {
      hide Stamped, StreamsOf;
      var stream := StreamKey(d.event.sessionId, d.event.agentId);
      var n := NumberOf(seqs, stream);
      seqs := seqs[stream := n + 1];
      StampKeepsStream(d, workflowId, n);
      var e := Stamped(d, workflowId, n);
      if mute { return; }
      out := out + [e];
      StreamsOfStep(old(out), e);
      events := events + 1;
      if stream !in seen {
        seen := seen + {stream};
        sessions := sessions + 1;
      }
    }

    /** Pushes the drafts of one record, all of one stream. */
    method PushAll(ghost f: SourceFile, ghost a: Anchor, workflowId: string, drafts: seq<Draft>, ghost stream: string)
      requires Tallied()
      requires f.workflowId == workflowId && mute == !Heard(filters, f, a)
      requires forall d :: d in drafts ==> StreamOf(d.event) == stream
      modifies this`seqs, this`out, this`seen, this`sessions, this`events
      ensures Tallied()
      ensures seqs == if drafts == [] then old(seqs) else old(seqs)[stream := NumberOf(old(seqs), stream) + |drafts|]
      ensures out == old(out) + Kept(filters, NumberAll(f, a, drafts, NumberOf(old(seqs), stream)))
    {
      hide Stamped, StreamsOf, Kept, NumberAll, Tallied, Heard;
      ghost var n := NumberOf(seqs, stream);
      NothingKept(filters, f, a, n);
      for i := 0 to |drafts|
        invariant Tallied()
        invariant seqs == if i == 0 then old(seqs) else old(seqs)[stream := n + i]
        invariant out == old(out) + Kept(filters, NumberAll(f, a, drafts[..i], n))
      {
        Push(drafts[i], workflowId);
        KeptNumbered(filters, f, a, drafts, n, i);
      }
      assert drafts[..|drafts|] == drafts;
    }

    method Record(f: SourceFile, r: Record)
      requires Tallied()
      requires mute == !Heard(filters, f, AnchorOf(r))
      modifies this`seqs, this`marks, this`out, this`seen, this`sessions, this`events, this`st
      ensures Tallied()
      ensures var step := WalkRecord(f, ForkOf(forks, f.path), old(st), old(State()), r);
              st == step.st && State() == step.streams && out == old(out) + Kept(filters, step.events)
    {
      hide Kept, NumberAll, Tallied, AnchorOf, Build, Base, StartDraft, PartDrafts, ForkOf, Heard, StreamKey;
      var stream := StreamKey(r.sessionId, st.agentId);
      if r.parentMark != "" { marks := marks[stream := r.parentMark]; }
      var base := Base(r, st.agentId, MarkOf(marks, stream), st.clock);
      var drafts := [];
      if stream !in st.started {
        drafts := [StartDraft(base, st.kind, ForkOf(forks, f.path))];
      }
      st := st.(started := st.started + {stream});
      var parts := BuildRecord(r);
      drafts := drafts + PartDrafts(base, parts);
      BaseStream(r, st.agentId, MarkOf(marks, stream), st.clock);
      OneStream(base, st.kind, ForkOf(forks, f.path), parts);
      PushAll(f, AnchorOf(r), f.workflowId, drafts, stream);
    }

    method Line(f: SourceFile, l: Line)
      requires Tallied()
      requires done == (filters.session == "" && filters.done(f.path))
      requires outside == (filters.session == "" && !InWindow(filters, f))
      modifies this`seqs, this`marks, this`out, this`seen, this`sessions, this`events, this`mute, this`st
      ensures Tallied()
      ensures var step := WalkLine(f, ForkOf(forks, f.path), old(st), old(State()), l);
              st == step.st && State() == step.streams && out == old(out) + Kept(filters, step.events)
    {
      hide Kept, WalkRecord, Tallied, AnchorOf, InWindow, AgentName, ForkOf;
      NothingKept(filters, f, AnchorOf(BLANK), 0);
      if l.BadJson? { return; }
      var r := l.rec;
      if Ignored(r.kind) { return; }
      if r.sessionId == "" { return; }
      if st.kind == SessionFile && Sidechain(r) {
        if st.started == {} {
          st := st.(kind := AgentFile, agentId := AgentName(r.agentId, f.stem));
        } else {
          return;
        }
      }
      match r.timestamp {
        case None =>
          if st.clock == ZERO_TIME { return; }
        case Some(t) =>
          st := st.(clock := t);
      }
      mute := done || outside || !filters.only(AnchorOf(r));
      Record(f, r);
    }

    method File(f: SourceFile)
      requires Tallied()
      modifies this
      ensures Tallied()
      ensures var step := WalkFile(f, forks, old(State()));
              State() == step.streams && out == old(out) + Kept(filters, step.events)
    {
      hide WalkLine, InWindow, Tallied, ForkOf, Kept;
      NothingKept(filters, f, AnchorOf(BLANK), 0);
      if f.kind == JournalFile { return; }
      var forced := filters.session != "";
      done := !forced && filters.done(f.path);
      outside := !forced && !InWindow(filters, f);
      st := FileState(f.kind, f.agentId, {}, ZERO_TIME);
      ghost var fork := ForkOf(forks, f.path);
      for i := 0 to |f.lines|
        invariant Tallied()
        invariant done == (filters.session == "" && filters.done(f.path))
        invariant outside == (filters.session == "" && !InWindow(filters, f))
        invariant var step := WalkLines(f, fork, old(State()), f.lines[..i]);
                  st == step.st && State() == step.streams && out == old(out) + Kept(filters, step.events)
      {
        ghost var before := WalkLines(f, fork, old(State()), f.lines[..i]);
        Line(f, f.lines[i]);
        assert f.lines[..i + 1][..i] == f.lines[..i];
        KeptAppend(filters, before.events, WalkLine(f, fork, before.st, before.streams, f.lines[i]).events);
      }
      assert f.lines[..|f.lines|] == f.lines;
    }

    /** Whatever the filters, what is emitted is what they let through of the one unfiltered walk. */
    method Run(files: seq<SourceFile>)
      requires State() == Streams(map[], map[]) && out == [] && Tallied()
      modifies this
      ensures Tallied()
      ensures out == Kept(filters, WalkAll(Belonging(files, filters.session), forks).0)
    {
      hide WalkFile, Kept, Tallied, WalkAll;
      NothingKept(filters, NO_FILE, AnchorOf(BLANK), 0);
      WalkAllStart(forks);
      for i := 0 to |files|
        invariant Tallied()
        invariant State() == WalkAll(Belonging(files[..i], filters.session), forks).1
        invariant out == Kept(filters, WalkAll(Belonging(files[..i], filters.session), forks).0)
      {
        ghost var mine := Belonging(files[..i], filters.session);
        BelongingStep(files, i, filters.session);
        if filters.session != "" && files[i].owner != filters.session { continue; }
        File(files[i]);
        WalkAllStep(mine, files[i], forks);
        KeptAppend(filters, WalkAll(mine, forks).0, WalkFile(files[i], forks, WalkAll(mine, forks).1).events);
      }
      assert files[..|files|] == files;
    }
  }
}
