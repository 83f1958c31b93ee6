/** One recovery pass over a session, and what is left to recover after it. */
module Recoverer {
  import opened Events
  import opened Names
  import opened Transcript
  import opened Walker
  import opened Ledger
  import opened Recovery
  import H = HookRuns

  // -------------------------------------------------------- records that heal

  /** The ledger line a part of the record leaves when it is recovered. */
  function PartEntry(r: Record, p: Part): Entry
  {
    Entry(p.kind, r.promptId, p.toolUseId, r.uuid)
  }

  /** For every tool id of the record there is a block of the record's own kind. */
  predicate FitTools(r: Record)
  {
    var ids := ToolIds(r.blocks);
    && (r.kind == "assistant" ==> forall id :: id in ids && id != "" ==> !IsCompaction(r) && Calls(r.blocks, id))
    && (r.kind == "user" && HasToolResult(r.blocks) ==>
          forall id :: id in ids && id != "" ==> !IsCompaction(r) && Answers(r.blocks, id))
  }

  /**
   * The record builds the kind of event the diff looks for: a prompt that is not a compaction
   * and says something, an answer with a uuid and an event to carry it, and its tools.
   */
  predicate Fit(r: Record)
  {
    && (Opens(AnchorOf(r)) ==> !IsCompaction(r) && (HasProse(r) || r.usage.Some?))
    && (r.kind == "assistant" && ToolIds(r.blocks) == [] ==> r.uuid != "" && Build(r) != [])
    && FitTools(r)
  }

  /** What the record might be asked for, whatever turn it stands in. */
  predicate Asks(a: Anchor, need: Need)
  {
    match need
    case PromptNeed(p) => Opens(a) && a.promptId == p
    case AnswerNeed(p, uuid) => a.kind == "assistant" && p != "" && a.toolUseIds == [] && uuid == a.uuid
    case _ => CarriesTool(a, need)
  }

  ghost predicate Delivers(r: Record, need: Need)
  {
    exists p :: p in Build(r) && Meets(PartEntry(r, p), need)
  }

  lemma {:induction false} ToolIdsOf(blocks: seq<Block>, id: string)
    ensures id in ToolIds(blocks) <==> Calls(blocks, id) || Answers(blocks, id)
  {
    if blocks != [] {
      var front, last := blocks[..|blocks| - 1], blocks[|blocks| - 1];
      ToolIdsOf(front, id);
      assert blocks == front + [last];
    }
  }

  /** Which tool ids a record's events carry. */
  lemma DeliversTool(r: Record, id: string)
    requires id != ""
    ensures Delivers(r, CallNeed(id)) <==> !IsCompaction(r) && Calls(r.blocks, id)
    ensures Delivers(r, ResultNeed(id)) <==> !IsCompaction(r) && Answers(r.blocks, id)
  {
    hide IsCompaction, HasProse, Prose, Unwrapped, BlockParts;
    BlockPartsOf(r.blocks, id);
    if Delivers(r, CallNeed(id)) {
      var p :| p in Build(r) && Meets(PartEntry(r, p), CallNeed(id));
      assert p in BlockParts(r.blocks);
      assert BuildsCall(BlockParts(r.blocks), id);
    }
    if Delivers(r, ResultNeed(id)) {
      var p :| p in Build(r) && Meets(PartEntry(r, p), ResultNeed(id));
      assert p in BlockParts(r.blocks);
      assert BuildsAnswer(BlockParts(r.blocks), id);
    }
    if !IsCompaction(r) && Calls(r.blocks, id) {
      var p :| p in BlockParts(r.blocks) && p.kind == ToolCall && p.toolUseId == id;
      assert p in Build(r) && Meets(PartEntry(r, p), CallNeed(id));
    }
    if !IsCompaction(r) && Answers(r.blocks, id) {
      var p :| p in BlockParts(r.blocks) && p.kind in {ToolResult, ToolFailed} && p.toolUseId == id;
      assert p in Build(r) && Meets(PartEntry(r, p), ResultNeed(id));
    }
  }

  lemma DeliversPrompt(r: Record, p: string)
    requires p != ""
    ensures Delivers(r, PromptNeed(p))
       <==> r.kind == "user" && r.promptId == p && !IsCompaction(r) && (HasProse(r) || r.usage.Some?)
  {
    hide IsCompaction, HasProse, Prose, Unwrapped, BlockParts;
    BlockPartsCarryNoUsage(r.blocks);
    if Delivers(r, PromptNeed(p)) {
      var q :| q in Build(r) && Meets(PartEntry(r, q), PromptNeed(p));
      assert q !in BlockParts(r.blocks);
    }
    if r.kind == "user" && r.promptId == p && !IsCompaction(r) && (HasProse(r) || r.usage.Some?) {
      assert TurnPart(r) in Build(r) && Meets(PartEntry(r, TurnPart(r)), PromptNeed(p));
    }
  }

  /** An answer is found again by its uuid, whatever it built. */
  lemma DeliversAnswer(r: Record)
    ensures r.uuid != "" && Build(r) != [] ==> forall p :: Delivers(r, AnswerNeed(p, r.uuid))
    ensures r.uuid == "" || Build(r) == [] ==> exists p :: p != "" && !Delivers(r, AnswerNeed(p, r.uuid))
  {
    hide Build;
    if r.uuid != "" && Build(r) != [] {
      forall p ensures Delivers(r, AnswerNeed(p, r.uuid)) {
        assert Build(r)[0] in Build(r) && Meets(PartEntry(r, Build(r)[0]), AnswerNeed(p, r.uuid));
      }
    } else {
      var p := r.promptId + "x";
      assert |p| != |r.promptId|;
      assert !Delivers(r, AnswerNeed(p, r.uuid));
    }
  }

  ghost predicate DeliversAll(r: Record)
  {
    forall need :: Asks(AnchorOf(r), need) ==> Delivers(r, need)
  }

  /** A record delivers everything it can be asked for exactly when it is fit. */
  lemma FitExact(r: Record)
    ensures DeliversAll(r) <==> Fit(r)
  {
    if Fit(r) { FitDelivers(r); }
    if DeliversAll(r) { DeliversFit(r); }
  }

  lemma FitToolsDelivers(r: Record, need: Need)
    requires FitTools(r) && CarriesTool(AnchorOf(r), need)
    ensures Delivers(r, need)
  {
    hide Delivers, Build, IsCompaction, HasProse, BlockParts, Calls, Answers;
    DeliversTool(r, need.toolUseId);
    ToolIdsOf(r.blocks, need.toolUseId);
  }

  lemma FitDelivers(r: Record)
    requires Fit(r)
    ensures DeliversAll(r)
  {
    hide Delivers, Build, IsCompaction, HasProse, BlockParts, Calls, Answers, FitTools;
    var a := AnchorOf(r);
    forall need | Asks(a, need) ensures Delivers(r, need) {
      match need {
        case PromptNeed(p) => DeliversPrompt(r, p);
        case AnswerNeed(p, uuid) => DeliversAnswer(r);
        case CallNeed(id) => FitToolsDelivers(r, need);
        case ResultNeed(id) => FitToolsDelivers(r, need);
      }
    }
  }

  lemma DeliversFit(r: Record)
    requires DeliversAll(r)
    ensures Fit(r)
  {
    hide Delivers, Build, IsCompaction, HasProse, BlockParts, Calls, Answers;
    var a := AnchorOf(r);
    if Opens(a) {
      assert Asks(a, PromptNeed(r.promptId));
      DeliversPrompt(r, r.promptId);
    }
    DeliversAnswer(r);
    if r.kind == "assistant" && ToolIds(r.blocks) == [] { AsksAnswer(r); }
    forall id | id in ToolIds(r.blocks) && id != ""
      ensures r.kind == "assistant" ==> !IsCompaction(r) && Calls(r.blocks, id)
      ensures r.kind == "user" && HasToolResult(r.blocks) ==> !IsCompaction(r) && Answers(r.blocks, id)
    {
      DeliversTool(r, id);
      if r.kind == "assistant" { assert Asks(a, CallNeed(id)); }
      if r.kind == "user" && HasToolResult(r.blocks) { assert Asks(a, ResultNeed(id)); }
    }
  }

  lemma AsksAnswer(r: Record)
    requires DeliversAll(r) && r.kind == "assistant" && ToolIds(r.blocks) == []
    ensures forall p :: p != "" ==> Delivers(r, AnswerNeed(p, r.uuid))
  {
    hide Delivers;
    forall p | p != "" ensures Delivers(r, AnswerNeed(p, r.uuid)) {
      assert Asks(AnchorOf(r), AnswerNeed(p, r.uuid));
    }
  }

  // ------------------------------------------------ what a walk has to show for it

  /** Some event, of a record accepted by its uuid, leaves a ledger line that meets the need. */
  ghost predicate Shows(events: seq<Numbered>, accepted: set<string>, need: Need)
  {
    exists i :: 0 <= i < |events| && events[i].anchor.uuid in accepted && Meets(EntryOf(events[i].event), need)
  }

  lemma ShowsJoin(a: seq<Numbered>, b: seq<Numbered>, accepted: set<string>, need: Need)
    ensures Shows(a + b, accepted, need) <==> Shows(a, accepted, need) || Shows(b, accepted, need)
  {
    hide Meets, EntryOf;
    var all := a + b;
    if i :| 0 <= i < |a| && a[i].anchor.uuid in accepted && Meets(EntryOf(a[i].event), need) {
      assert all[i] == a[i];
    }
    if i :| 0 <= i < |b| && b[i].anchor.uuid in accepted && Meets(EntryOf(b[i].event), need) {
      assert all[|a| + i] == b[i];
    }
    if i :| 0 <= i < |all| && all[i].anchor.uuid in accepted && Meets(EntryOf(all[i].event), need) {
      if i < |a| { assert all[i] == a[i]; } else { assert all[i] == b[i - |a|]; }
    }
  }

  lemma NothingShown(accepted: set<string>, need: Need)
    ensures !Shows([], accepted, need)
  {
  }

  ghost predicate DraftMeets(drafts: seq<Draft>, need: Need)
  {
    exists i :: 0 <= i < |drafts| && Meets(EntryOf(drafts[i].event), need)
  }

  lemma StampKeepsEntry(d: Draft, workflowId: string, n: nat)
    ensures EntryOf(Stamped(d, workflowId, n)) == EntryOf(d.event)
  {
  }

  lemma DraftMeetsJoin(a: seq<Draft>, b: seq<Draft>, need: Need)
    ensures DraftMeets(a + b, need) <==> DraftMeets(a, need) || DraftMeets(b, need)
  {
    hide Meets, EntryOf;
    var all := a + b;
    if i :| 0 <= i < |a| && Meets(EntryOf(a[i].event), need) { assert all[i] == a[i]; }
    if i :| 0 <= i < |b| && Meets(EntryOf(b[i].event), need) { assert all[|a| + i] == b[i]; }
    if i :| 0 <= i < |all| && Meets(EntryOf(all[i].event), need) {
      if i < |a| { assert all[i] == a[i]; } else { assert all[i] == b[i - |a|]; }
    }
  }

  lemma {:induction false} DraftsShow(f: SourceFile, a: Anchor, drafts: seq<Draft>, n: nat, accepted: set<string>,
                                      need: Need)
    ensures Shows(NumberAll(f, a, drafts, n), accepted, need) <==> a.uuid in accepted && DraftMeets(drafts, need)
  {
    hide Stamped, EntryOf, Meets;
    if drafts != [] {
      var k := |drafts| - 1;
      var last := Numbered(f, a, Stamped(drafts[k], f.workflowId, n + k));
      DraftsShow(f, a, drafts[..k], n, accepted, need);
      ShowsJoin(NumberAll(f, a, drafts[..k], n), [last], accepted, need);
      DraftMeetsJoin(drafts[..k], [drafts[k]], need);
      assert drafts == drafts[..k] + [drafts[k]];
      StampKeepsEntry(drafts[k], f.workflowId, n + k);
      assert [last][0] == last && [drafts[k]][0] == drafts[k];
    }
  }

  lemma {:induction false} PartDraftsAt(base: Event, parts: seq<Part>, i: nat)
    requires i < |parts|
    ensures EntryOf(PartDrafts(base, parts)[i].event)
            == Entry(parts[i].kind, base.promptId, parts[i].toolUseId, base.recordUuid)
  {
    if i < |parts| - 1 { PartDraftsAt(base, parts[..|parts| - 1], i); }
  }

  /** The record starts its stream in this file, and the start vouches for the answer under its uuid. */
  predicate StartMeets(st: FileState, r: Record, need: Need)
  {
    StreamKey(r.sessionId, st.agentId) !in st.started && need.AnswerNeed? && need.uuid != "" && need.uuid == r.uuid
  }

  /** The events of the record leave a ledger line that meets the need. */
  ghost predicate RecordMeets(st: FileState, r: Record, need: Need)
  {
    Delivers(r, need) || StartMeets(st, r, need)
  }

  lemma PartsMeet(r: Record, agentId: string, mark: string, at: Time, need: Need)
    ensures DraftMeets(PartDrafts(Base(r, agentId, mark, at), Build(r)), need) <==> Delivers(r, need)
  {
    hide Build, Meets, EntryOf, PartDrafts;
    var base, parts := Base(r, agentId, mark, at), Build(r);
    var drafts := PartDrafts(base, parts);
    forall i | 0 <= i < |parts| ensures EntryOf(drafts[i].event) == PartEntry(r, parts[i]) {
      PartDraftsAt(base, parts, i);
    }
    if Delivers(r, need) {
      var p :| p in Build(r) && Meets(PartEntry(r, p), need);
      var i :| 0 <= i < |parts| && parts[i] == p;
      assert Meets(EntryOf(drafts[i].event), need);
    }
  }

  lemma StartMeetsExactly(base: Event, kind: FileKind, fork: Option<Fork>, need: Need)
    ensures Meets(EntryOf(StartDraft(base, kind, fork).event), need)
       <==> need.AnswerNeed? && need.uuid != "" && need.uuid == base.recordUuid
  {
  }

  lemma RecordShows(f: SourceFile, fork: Option<Fork>, st: FileState, w: Streams, r: Record, accepted: set<string>,
                    need: Need)
    ensures Shows(WalkRecord(f, fork, st, w, r).events, accepted, need)
       <==> r.uuid in accepted && RecordMeets(st, r, need)
  {
    hide Build, NumberAll, Shows, EntryOf, Meets, PartDrafts, StartDraft, Delivers, StreamKey;
    var stream := StreamKey(r.sessionId, st.agentId);
    var marks := if r.parentMark != "" then w.marks[stream := r.parentMark] else w.marks;
    var base := Base(r, st.agentId, MarkOf(marks, stream), st.clock);
    var start, parts := StartDraft(base, st.kind, fork), PartDrafts(base, Build(r));
    DraftsShow(f, AnchorOf(r), Drafts(st, r, MarkOf(marks, stream), fork), NumberOf(w.seqs, stream), accepted, need);
    PartsMeet(r, st.agentId, MarkOf(marks, stream), st.clock, need);
    StartMeetsExactly(base, st.kind, fork, need);
    DraftMeetsJoin([start], parts, need);
    assert [start][0] == start && [] + parts == parts;
  }

  /** The line at j is walked: its record builds events. */
  ghost predicate LineWalked(f: SourceFile, fork: Option<Fork>, w: Streams, lines: seq<Line>, j: nat)
    requires j < |lines|
  {
    Accepts(WalkLines(f, fork, w, lines[..j]).st, lines[j])
  }

  ghost predicate LineMeets(f: SourceFile, fork: Option<Fork>, w: Streams, lines: seq<Line>, j: nat, uuid: string,
                            need: Need)
    requires j < |lines|
  {
    && LineWalked(f, fork, w, lines, j) && lines[j].rec.uuid == uuid
    && RecordMeets(Within(f, WalkLines(f, fork, w, lines[..j]).st, lines[j].rec), lines[j].rec, need)
  }

  ghost predicate SomeLineMeets(f: SourceFile, fork: Option<Fork>, w: Streams, lines: seq<Line>, accepted: set<string>,
                                need: Need)
  {
    exists j: nat, uuid :: j < |lines| && uuid in accepted && LineMeets(f, fork, w, lines, j, uuid, need)
  }

  lemma EarlierLine(f: SourceFile, fork: Option<Fork>, w: Streams, lines: seq<Line>, k: nat, j: nat, uuid: string,
                    need: Need)
    requires j < k <= |lines|
    ensures LineMeets(f, fork, w, lines[..k], j, uuid, need) <==> LineMeets(f, fork, w, lines, j, uuid, need)
  {
    assert lines[..k][..j] == lines[..j];
  }

  lemma SomeLineStep(f: SourceFile, fork: Option<Fork>, w: Streams, lines: seq<Line>, accepted: set<string>, need: Need)
    requires lines != []
    ensures
      var k := |lines| - 1;
      SomeLineMeets(f, fork, w, lines, accepted, need)
      <==> SomeLineMeets(f, fork, w, lines[..k], accepted, need)
           || exists uuid :: uuid in accepted && LineMeets(f, fork, w, lines, k, uuid, need)
  {
    hide LineMeets;
    var k := |lines| - 1;
    forall j: nat, uuid | j < k
      ensures LineMeets(f, fork, w, lines[..k], j, uuid, need) <==> LineMeets(f, fork, w, lines, j, uuid, need) {
      EarlierLine(f, fork, w, lines, k, j, uuid, need);
    }
  }

  lemma LastLineShows(f: SourceFile, fork: Option<Fork>, w: Streams, lines: seq<Line>, accepted: set<string>,
                      need: Need)
    requires lines != []
    ensures
      var k := |lines| - 1;
      var most := WalkLines(f, fork, w, lines[..k]);
      Shows(WalkLine(f, fork, most.st, most.streams, lines[k]).events, accepted, need)
      <==> exists uuid :: uuid in accepted && LineMeets(f, fork, w, lines, k, uuid, need)
  {
    hide WalkLine, WalkLines, WalkRecord, Shows, RecordMeets, Accepts, Within;
    var k := |lines| - 1;
    var most, l := WalkLines(f, fork, w, lines[..k]), lines[k];
    LineIs(f, fork, most.st, most.streams, l);
    NothingShown(accepted, need);
    if Accepts(most.st, l) {
      AcceptsUsable(most.st, l);
      RecordShows(f, fork, Within(f, most.st, l.rec), most.streams, l.rec, accepted, need);
      if l.rec.uuid in accepted && RecordMeets(Within(f, most.st, l.rec), l.rec, need) {
        assert LineMeets(f, fork, w, lines, k, l.rec.uuid, need);
      }
    }
  }

  lemma {:induction false} LinesShow(f: SourceFile, fork: Option<Fork>, w: Streams, lines: seq<Line>,
                                     accepted: set<string>, need: Need)
    ensures Shows(WalkLines(f, fork, w, lines).events, accepted, need)
       <==> SomeLineMeets(f, fork, w, lines, accepted, need)
  {
    NothingShown(accepted, need);
    if lines != [] {
      var k := |lines| - 1;
      LinesShow(f, fork, w, lines[..k], accepted, need);
      LinesStep(f, fork, w, lines);
      hide WalkLines, WalkLine, Shows, SomeLineMeets;
      var most := WalkLines(f, fork, w, lines[..k]);
      ShowsJoin(most.events, WalkLine(f, fork, most.st, most.streams, lines[k]).events, accepted, need);
      LastLineShows(f, fork, w, lines, accepted, need);
      SomeLineStep(f, fork, w, lines, accepted, need);
    }
  }

  /** The walk over the files reads, under this uuid, a record whose events meet the need. */
  ghost predicate Recoverable(files: seq<SourceFile>, forks: map<string, Fork>, k: nat, j: nat, uuid: string,
                              need: Need)
    requires k < |files| && j < |files[k].lines|
  {
    var f := files[k];
    && f.kind != JournalFile
    && LineMeets(f, ForkOf(forks, f.path), WalkAll(files[..k], forks).1, f.lines, j, uuid, need)
  }

  ghost predicate SomeRecoverable(files: seq<SourceFile>, forks: map<string, Fork>, uuid: string, need: Need)
  {
    exists k: nat, j: nat :: k < |files| && j < |files[k].lines| && Recoverable(files, forks, k, j, uuid, need)
  }

  ghost predicate AcceptedMeets(files: seq<SourceFile>, forks: map<string, Fork>, accepted: set<string>, need: Need)
  {
    exists uuid :: uuid in accepted && SomeRecoverable(files, forks, uuid, need)
  }

  lemma EarlierFile(files: seq<SourceFile>, f: SourceFile, forks: map<string, Fork>, k: nat, j: nat, uuid: string,
                    need: Need)
    requires k < |files| && j < |files[k].lines|
    ensures (files + [f])[k] == files[k]
    ensures Recoverable(files + [f], forks, k, j, uuid, need) <==> Recoverable(files, forks, k, j, uuid, need)
  {
    hide LineMeets, WalkAll;
    assert (files + [f])[..k] == files[..k];
  }

  lemma SomeEarlierFile(files: seq<SourceFile>, f: SourceFile, forks: map<string, Fork>, uuid: string, need: Need)
    requires SomeRecoverable(files, forks, uuid, need)
    ensures SomeRecoverable(files + [f], forks, uuid, need)
  {
    hide Recoverable;
    var k: nat, j: nat :| k < |files| && j < |files[k].lines| && Recoverable(files, forks, k, j, uuid, need);
    EarlierFile(files, f, forks, k, j, uuid, need);
  }

  lemma SomeLastFile(files: seq<SourceFile>, f: SourceFile, forks: map<string, Fork>, accepted: set<string>, need: Need)
    requires f.kind != JournalFile
    requires SomeLineMeets(f, ForkOf(forks, f.path), WalkAll(files, forks).1, f.lines, accepted, need)
    ensures AcceptedMeets(files + [f], forks, accepted, need)
  {
    hide LineMeets, WalkAll;
    var j: nat, uuid :| j < |f.lines| && uuid in accepted
      && LineMeets(f, ForkOf(forks, f.path), WalkAll(files, forks).1, f.lines, j, uuid, need);
    var n, more := |files|, files + [f];
    assert more[..n] == files && more[n] == f;
    assert Recoverable(more, forks, n, j, uuid, need);
    assert SomeRecoverable(more, forks, uuid, need);
  }

  lemma WhichFile(files: seq<SourceFile>, f: SourceFile, forks: map<string, Fork>, accepted: set<string>, need: Need)
    requires AcceptedMeets(files + [f], forks, accepted, need)
    ensures AcceptedMeets(files, forks, accepted, need)
            || (f.kind != JournalFile
                && SomeLineMeets(f, ForkOf(forks, f.path), WalkAll(files, forks).1, f.lines, accepted, need))
  {
    hide LineMeets, WalkAll;
    var n, more := |files|, files + [f];
    var uuid :| uuid in accepted && SomeRecoverable(more, forks, uuid, need);
    var k: nat, j: nat :| k < |more| && j < |more[k].lines| && Recoverable(more, forks, k, j, uuid, need);
    if k < n {
      EarlierFile(files, f, forks, k, j, uuid, need);
      assert SomeRecoverable(files, forks, uuid, need);
    } else {
      assert more[..n] == files && more[n] == f;
    }
  }

  lemma LastFileMeets(files: seq<SourceFile>, f: SourceFile, forks: map<string, Fork>, accepted: set<string>,
                      need: Need)
    ensures AcceptedMeets(files + [f], forks, accepted, need)
       <==> AcceptedMeets(files, forks, accepted, need)
            || (f.kind != JournalFile
                && SomeLineMeets(f, ForkOf(forks, f.path), WalkAll(files, forks).1, f.lines, accepted, need))
  {
    hide SomeLineMeets, WalkAll, SomeRecoverable;
    if AcceptedMeets(files + [f], forks, accepted, need) { WhichFile(files, f, forks, accepted, need); }
    if AcceptedMeets(files, forks, accepted, need) {
      var uuid :| uuid in accepted && SomeRecoverable(files, forks, uuid, need);
      SomeEarlierFile(files, f, forks, uuid, need);
    }
    if f.kind != JournalFile
       && SomeLineMeets(f, ForkOf(forks, f.path), WalkAll(files, forks).1, f.lines, accepted, need) {
      SomeLastFile(files, f, forks, accepted, need);
    }
  }

  /** The events of the accepted records meet a need exactly when the walk reads one of them that does. */
  lemma {:induction false} WalkShows(files: seq<SourceFile>, forks: map<string, Fork>, accepted: set<string>,
                                     need: Need)
    ensures Shows(WalkAll(files, forks).0, accepted, need) <==> AcceptedMeets(files, forks, accepted, need)
  {
    NothingShown(accepted, need);
    WalkAllStart(forks);
    if files != [] {
      var front, f := files[..|files| - 1], files[|files| - 1];
      assert files == front + [f];
      WalkShows(front, forks, accepted, need);
      WalkAllStep(front, f, forks);
      LastFileMeets(front, f, forks, accepted, need);
      hide WalkAll, WalkLines, Shows, AcceptedMeets, SomeLineMeets;
      var (before, w) := WalkAll(front, forks);
      ShowsJoin(before, WalkFile(f, forks, w).events, accepted, need);
      if f.kind != JournalFile { LinesShow(f, ForkOf(forks, f.path), w, f.lines, accepted, need); }
    }
  }

  // ---------------------------------------------------------------- one pass

  /** A record of the main transcript or of a named subagent carries the need. */
  ghost predicate Wanted(main: seq<Anchor>, agents: seq<seq<Anchor>>, uuid: string, need: Need)
  {
    Carried(main, uuid, need) || exists k :: 0 <= k < |agents| && ToolCarried(agents[k], uuid, need)
  }

  /** Under this uuid there is something no ledger line vouches for. */
  ghost predicate Lost(main: seq<Anchor>, agents: seq<seq<Anchor>>, entries: seq<Entry>, uuid: string, need: Need)
  {
    Wanted(main, agents, uuid, need) && !Met(entries, need)
  }

  ghost predicate NothingLost(main: seq<Anchor>, agents: seq<seq<Anchor>>, entries: seq<Entry>)
  {
    forall uuid, need :: !Lost(main, agents, entries, uuid, need)
  }

  /** What the diff of a pass accepts. */
  ghost predicate IsDiff(main: seq<Anchor>, agents: seq<seq<Anchor>>, entries: seq<Entry>, accepted: set<string>)
  {
    forall uuid :: uuid in accepted <==> exists need :: Lost(main, agents, entries, uuid, need)
  }

  ghost predicate MetByOne(events: seq<Event>, need: Need)
  {
    exists i :: 0 <= i < |events| && Meets(EntryOf(events[i]), need)
  }

  lemma MetByEvents(events: seq<Event>, need: Need)
    ensures Met(EntriesOf(events), need) <==> MetByOne(events, need)
  {
    hide Meets, EntryOf;
    var entries := EntriesOf(events);
    if MetByOne(events, need) {
      var i :| 0 <= i < |events| && Meets(EntryOf(events[i]), need);
      assert entries[i] in entries;
    }
  }

  /** A pass leaves nothing lost exactly when it emits, for all that was lost, an event that meets it. */
  lemma PassExact(main: seq<Anchor>, agents: seq<seq<Anchor>>, entries: seq<Entry>, emitted: seq<Event>)
    ensures NothingLost(main, agents, entries + EntriesOf(emitted))
       <==> forall uuid, need :: Lost(main, agents, entries, uuid, need) ==> MetByOne(emitted, need)
  {
    hide Met, MetByOne, Wanted;
    forall uuid, need
      ensures Lost(main, agents, entries + EntriesOf(emitted), uuid, need)
         <==> Lost(main, agents, entries, uuid, need) && !MetByOne(emitted, need)
    {
      MetAppend(entries, EntriesOf(emitted), need);
      MetByEvents(emitted, need);
    }
  }

  /** The walk of a pass: the named session, only the accepted records. */
  ghost predicate ForPass(o: Filters, accepted: set<string>)
  {
    o.session != "" && forall a :: o.only(a) <==> a.uuid in accepted
  }

  lemma {:induction false} KeptShows(o: Filters, accepted: set<string>, events: seq<Numbered>, need: Need)
    requires ForPass(o, accepted)
    ensures MetByOne(Kept(o, events), need) <==> Shows(events, accepted, need)
  {
    hide Meets, EntryOf;
    NothingShown(accepted, need);
    if events != [] {
      var k := |events| - 1;
      var last, front := events[k], Kept(o, events[..k]);
      KeptShows(o, accepted, events[..k], need);
      ShowsJoin(events[..k], [last], accepted, need);
      assert events == events[..k] + [last] && [last][0] == last;
      assert Heard(o, last.file, last.anchor) <==> last.anchor.uuid in accepted;
      MetByOneMore(front, last.event, need);
      assert front + [] == front;
    }
  }

  lemma MetByOneMore(front: seq<Event>, e: Event, need: Need)
    ensures MetByOne(front + [e], need) <==> MetByOne(front, need) || Meets(EntryOf(e), need)
  {
    hide Meets, EntryOf;
    var more := front + [e];
    assert more[|front|] == e;
    if i :| 0 <= i < |front| && Meets(EntryOf(front[i]), need) { assert more[i] == front[i]; }
    if i :| 0 <= i < |more| && Meets(EntryOf(more[i]), need) {
      if i < |front| { assert more[i] == front[i]; }
    }
  }

  /** What is emitted for the accepted records meets a need exactly when one of them is walked and its events do. */
  lemma EmittedExact(o: Filters, files: seq<SourceFile>, forks: map<string, Fork>, accepted: set<string>, need: Need)
    requires ForPass(o, accepted)
    ensures MetByOne(Kept(o, WalkAll(files, forks).0), need) <==> AcceptedMeets(files, forks, accepted, need)
  {
    hide WalkAll, Kept, Shows, MetByOne, AcceptedMeets, ForPass;
    KeptShows(o, accepted, WalkAll(files, forks).0, need);
    WalkShows(files, forks, accepted, need);
  }

  /**
   * After a pass nothing is lost exactly when every lost need is met by the events of an accepted
   * record the walk reads; and a second diff accepts nothing exactly then.
   */
  lemma RecoveryExact(o: Filters, files: seq<SourceFile>, forks: map<string, Fork>, main: seq<Anchor>,
                      agents: seq<seq<Anchor>>, entries: seq<Entry>, accepted: set<string>, again: set<string>)
    requires ForPass(o, accepted) && IsDiff(main, agents, entries, accepted)
    requires IsDiff(main, agents, entries + EntriesOf(Kept(o, WalkAll(files, forks).0)), again)
    ensures NothingLost(main, agents, entries + EntriesOf(Kept(o, WalkAll(files, forks).0)))
       <==> forall uuid, need :: Lost(main, agents, entries, uuid, need) ==> AcceptedMeets(files, forks, accepted, need)
    ensures again == {} <==> NothingLost(main, agents, entries + EntriesOf(Kept(o, WalkAll(files, forks).0)))
  {
    hide WalkAll, Kept, MetByOne, AcceptedMeets, ForPass, Met, Wanted;
    var emitted := Kept(o, WalkAll(files, forks).0);
    PassExact(main, agents, entries, emitted);
    forall need ensures MetByOne(emitted, need) <==> AcceptedMeets(files, forks, accepted, need) {
      EmittedExact(o, files, forks, accepted, need);
    }
    SecondDiff(main, agents, entries + EntriesOf(emitted), again);
  }

  /** A diff accepts nothing exactly when nothing is lost. */
  lemma SecondDiff(main: seq<Anchor>, agents: seq<seq<Anchor>>, entries: seq<Entry>, again: set<string>)
    requires IsDiff(main, agents, entries, again)
    ensures again == {} <==> NothingLost(main, agents, entries)
  {
    hide Lost;
    if uuid, need :| Lost(main, agents, entries, uuid, need) { assert uuid in again; }
    if uuid :| uuid in again { assert exists need :: Lost(main, agents, entries, uuid, need); }
  }

  /** Whatever the transcripts want that the walk can read back is on the ledger after the pass. */
  lemma WantedIsMet(o: Filters, files: seq<SourceFile>, forks: map<string, Fork>, main: seq<Anchor>,
                    agents: seq<seq<Anchor>>, entries: seq<Entry>, accepted: set<string>, uuid: string, need: Need)
    requires ForPass(o, accepted) && IsDiff(main, agents, entries, accepted)
    requires Wanted(main, agents, uuid, need) && SomeRecoverable(files, forks, uuid, need)
    ensures Met(entries + EntriesOf(Kept(o, WalkAll(files, forks).0)), need)
  {
    hide WalkAll, Kept, MetByOne, SomeRecoverable, ForPass, Met, Wanted;
    var emitted := Kept(o, WalkAll(files, forks).0);
    MetAppend(entries, EntriesOf(emitted), need);
    MetByEvents(emitted, need);
    EmittedExact(o, files, forks, accepted, need);
    if !Met(entries, need) { assert Lost(main, agents, entries, uuid, need); }
  }

  /** The walk reads a record of this anchor, which builds what the diff may ask of it. */
  ghost predicate Sound(files: seq<SourceFile>, forks: map<string, Fork>, a: Anchor, toolsOnly: bool)
  {
    exists k: nat, j: nat :: k < |files| && j < |files[k].lines| && SoundAt(files, forks, k, j, a, toolsOnly)
  }

  ghost predicate SoundAt(files: seq<SourceFile>, forks: map<string, Fork>, k: nat, j: nat, a: Anchor, toolsOnly: bool)
    requires k < |files| && j < |files[k].lines|
  {
    var f := files[k];
    && f.kind != JournalFile && LineWalked(f, ForkOf(forks, f.path), WalkAll(files[..k], forks).1, f.lines, j)
    && AnchorOf(f.lines[j].rec) == a && (if toolsOnly then FitTools(f.lines[j].rec) else Fit(f.lines[j].rec))
  }

  lemma SoundIsRecoverable(files: seq<SourceFile>, forks: map<string, Fork>, a: Anchor, toolsOnly: bool, need: Need)
    requires Sound(files, forks, a, toolsOnly) && if toolsOnly then CarriesTool(a, need) else Asks(a, need)
    ensures SomeRecoverable(files, forks, a.uuid, need)
  {
    hide WalkAll, WalkLines, Fit, FitTools, Delivers, Asks, CarriesTool;
    var k: nat, j: nat :| k < |files| && j < |files[k].lines| && SoundAt(files, forks, k, j, a, toolsOnly);
    var r := files[k].lines[j].rec;
    if toolsOnly { FitToolsDelivers(r, need); } else { FitExact(r); }
    assert Recoverable(files, forks, k, j, a.uuid, need);
  }

  /** The record at i carries something no ledger line vouches for. */
  ghost predicate Lacks(anchors: seq<Anchor>, i: nat, entries: seq<Entry>)
    requires i < |anchors|
  {
    exists need :: Requires(anchors, i, need) && !Met(entries, need)
  }

  ghost predicate LacksTools(a: Anchor, entries: seq<Entry>)
  {
    exists need :: CarriesTool(a, need) && !Met(entries, need)
  }

  lemma RequiresAsks(anchors: seq<Anchor>, i: nat, need: Need)
    requires i < |anchors| && Requires(anchors, i, need)
    ensures Asks(anchors[i], need)
  {
  }

  lemma LostIsRecoverable(files: seq<SourceFile>, forks: map<string, Fork>, main: seq<Anchor>, agents: seq<seq<Anchor>>,
                          entries: seq<Entry>, uuid: string, need: Need)
    requires forall i :: 0 <= i < |main| && Lacks(main, i, entries) ==> Sound(files, forks, main[i], false)
    requires forall n, i :: 0 <= n < |agents| && 0 <= i < |agents[n]| && LacksTools(agents[n][i], entries) ==>
               Sound(files, forks, agents[n][i], true)
    requires Lost(main, agents, entries, uuid, need)
    ensures SomeRecoverable(files, forks, uuid, need)
  {
    hide Sound, SomeRecoverable, Requires, CarriesTool, Asks, Met;
    if Carried(main, uuid, need) {
      var i :| 0 <= i < |main| && main[i].uuid == uuid && Requires(main, i, need);
      assert Lacks(main, i, entries);
      RequiresAsks(main, i, need);
      SoundIsRecoverable(files, forks, main[i], false, need);
    } else {
      var n :| 0 <= n < |agents| && ToolCarried(agents[n], uuid, need);
      var i :| 0 <= i < |agents[n]| && agents[n][i].uuid == uuid && CarriesTool(agents[n][i], need);
      assert LacksTools(agents[n][i], entries);
      SoundIsRecoverable(files, forks, agents[n][i], true, need);
    }
  }

  /**
   * When the records the ledger lacks something of are walked and fit, and those of a subagent's
   * file fit in their tools, one pass puts every prompt, tool call, tool result and final answer
   * in the ledger, and a second accepts nothing. The records it does not lack may be anything.
   */
  lemma RecoveryCompletes(o: Filters, files: seq<SourceFile>, forks: map<string, Fork>, main: seq<Anchor>,
                          agents: seq<seq<Anchor>>, entries: seq<Entry>, accepted: set<string>, again: set<string>)
    requires ForPass(o, accepted) && IsDiff(main, agents, entries, accepted)
    requires forall i :: 0 <= i < |main| && Lacks(main, i, entries) ==> Sound(files, forks, main[i], false)
    requires forall n, i :: 0 <= n < |agents| && 0 <= i < |agents[n]| && LacksTools(agents[n][i], entries) ==>
               Sound(files, forks, agents[n][i], true)
    requires IsDiff(main, agents, entries + EntriesOf(Kept(o, WalkAll(files, forks).0)), again)
    ensures NothingLost(main, agents, entries + EntriesOf(Kept(o, WalkAll(files, forks).0))) && again == {}
  {
    hide WalkAll, Kept, Sound, SomeRecoverable, ForPass, Lost, Lacks, LacksTools;
    RecoveryExact(o, files, forks, main, agents, entries, accepted, again);
    forall uuid, need | Lost(main, agents, entries, uuid, need) ensures AcceptedMeets(files, forks, accepted, need) {
      LostIsRecoverable(files, forks, main, agents, entries, uuid, need);
      assert uuid in accepted;
    }
  }

  // --------------------------------------------------- what a pass cannot heal

  lemma {:induction false} KeptFrom(o: Filters, events: seq<Numbered>, e: Event)
    requires e in Kept(o, events)
    ensures exists i :: 0 <= i < |events| && events[i].event == e
  {
    hide Heard;
    var k := |events| - 1;
    if e in Kept(o, events[..k]) {
      KeptFrom(o, events[..k], e);
      var i :| 0 <= i < k && events[..k][i].event == e;
      assert events[i].event == e;
    } else {
      assert events[k].event == e;
    }
  }

  /** What no event of the whole walk meets stays lost, pass after pass, and its record is accepted each time. */
  lemma NeverHeals(o: Filters, files: seq<SourceFile>, forks: map<string, Fork>, main: seq<Anchor>,
                   agents: seq<seq<Anchor>>, entries: seq<Entry>, again: set<string>, uuid: string, need: Need)
    requires Lost(main, agents, entries, uuid, need)
    requires forall i :: 0 <= i < |WalkAll(files, forks).0| ==> !Meets(EntryOf(WalkAll(files, forks).0[i].event), need)
    requires IsDiff(main, agents, entries + EntriesOf(Kept(o, WalkAll(files, forks).0)), again)
    ensures Lost(main, agents, entries + EntriesOf(Kept(o, WalkAll(files, forks).0)), uuid, need) && uuid in again
  {
    hide WalkAll, Kept, Meets, EntryOf, Met, Wanted;
    var events := WalkAll(files, forks).0;
    var emitted := Kept(o, events);
    if MetByOne(emitted, need) {
      var i :| 0 <= i < |emitted| && Meets(EntryOf(emitted[i]), need);
      KeptFrom(o, events, emitted[i]);
    }
    MetAppend(entries, EntriesOf(emitted), need);
    MetByEvents(emitted, need);
  }

  /** A user record of the prompt that is stored as a compaction summary, or that says nothing and cost nothing. */
  predicate Mute(r: Record, promptId: string)
  {
    r.kind == "user" && r.promptId == promptId ==> IsCompaction(r) || !(HasProse(r) || r.usage.Some?)
  }

  lemma MuteIsUnrecoverable(files: seq<SourceFile>, forks: map<string, Fork>, promptId: string, uuid: string)
    requires promptId != ""
    requires forall f, l :: f in files && l in f.lines && l.Good? ==> Mute(l.rec, promptId)
    ensures !SomeRecoverable(files, forks, uuid, PromptNeed(promptId))
  {
    hide WalkAll, WalkLines, Delivers;
    if SomeRecoverable(files, forks, uuid, PromptNeed(promptId)) {
      var k: nat, j: nat :| k < |files| && j < |files[k].lines|
        && Recoverable(files, forks, k, j, uuid, PromptNeed(promptId));
      var f := files[k];
      assert f in files && f.lines[j] in f.lines;
      DeliversPrompt(f.lines[j].rec, promptId);
    }
  }

  /** No event of the walk meets what none of its records can. */
  lemma UnrecoverableIsUnmet(files: seq<SourceFile>, forks: map<string, Fork>, need: Need)
    requires forall uuid :: !SomeRecoverable(files, forks, uuid, need)
    ensures forall i :: 0 <= i < |WalkAll(files, forks).0| ==> !Meets(EntryOf(WalkAll(files, forks).0[i].event), need)
  {
    hide WalkAll, Meets, EntryOf, SomeRecoverable;
    var events := WalkAll(files, forks).0;
    forall i | 0 <= i < |events| ensures !Meets(EntryOf(events[i].event), need) {
      WalkShows(files, forks, {events[i].anchor.uuid}, need);
      assert !Shows(events, {events[i].anchor.uuid}, need);
    }
  }

  /**
   * A prompt all of whose user records are compaction summaries or silent is wanted and never
   * delivered: every pass leaves it lost and accepts its record again.
   */
  lemma CompactionPromptNeverHeals(o: Filters, files: seq<SourceFile>, forks: map<string, Fork>, main: seq<Anchor>,
                                   agents: seq<seq<Anchor>>, entries: seq<Entry>, again: set<string>, uuid: string,
                                   promptId: string)
    requires promptId != "" && Lost(main, agents, entries, uuid, PromptNeed(promptId))
    requires forall f, l :: f in files && l in f.lines && l.Good? ==> Mute(l.rec, promptId)
    requires IsDiff(main, agents, entries + EntriesOf(Kept(o, WalkAll(files, forks).0)), again)
    ensures Lost(main, agents, entries + EntriesOf(Kept(o, WalkAll(files, forks).0)), uuid, PromptNeed(promptId))
    ensures uuid in again
  {
    hide WalkAll, Kept, Meets, EntryOf, Lost, Mute, SomeRecoverable;
    forall u ensures !SomeRecoverable(files, forks, u, PromptNeed(promptId)) {
      MuteIsUnrecoverable(files, forks, promptId, u);
    }
    UnrecoverableIsUnmet(files, forks, PromptNeed(promptId));
    NeverHeals(o, files, forks, main, agents, entries, again, uuid, PromptNeed(promptId));
  }

  // ------------------------------------------------------------- the pass itself

  function FileAt(files: seq<SourceFile>, path: string): (i: int)
    ensures -1 <= i < |files| && (i >= 0 ==> files[i].path == path)
  {
    if files == [] then -1
    else if files[|files| - 1].path == path then |files| - 1
    else FileAt(files[..|files| - 1], path)
  }

  /** The marker is settled and names the subagent file. */
  predicate NamedBy(m: Marker, cutoff: nat, path: string)
  {
    m.agentTranscript == path && m.at < cutoff
  }

  ghost predicate NamesAgent(markers: seq<Marker>, cutoff: nat, path: string)
  {
    exists i :: 0 <= i < |markers| && NamedBy(markers[i], cutoff, path)
  }

  ghost predicate ListsAgents(markers: seq<Marker>, cutoff: nat, paths: seq<string>)
  {
    && (forall p :: p in paths <==> p != "" && NamesAgent(markers, cutoff, p))
    && (forall i, j :: 0 <= i < j < |paths| ==> paths[i] != paths[j])
  }

  /** agentTranscripts: the subagent files the settled markers name, each once. */
  method AgentTranscripts(markers: seq<Marker>, cutoff: nat) returns (paths: seq<string>)
    ensures ListsAgents(markers, cutoff, paths)
  {
    paths := [];
    var seen := {};
    for n := 0 to |markers|
      invariant forall p :: p in seen <==> p in paths
      invariant ListsAgents(markers[..n], cutoff, paths)
    {
      NamesAgentStep(markers, cutoff, n);
      var m := markers[n];
      if m.agentTranscript == "" || m.at >= cutoff || m.agentTranscript in seen { continue; }
      seen := seen + {m.agentTranscript};
      paths := paths + [m.agentTranscript];
    }
    assert markers[..|markers|] == markers;
  }

  lemma NamesAgentStep(markers: seq<Marker>, cutoff: nat, n: nat)
    requires n < |markers|
    ensures forall p :: NamesAgent(markers[..n + 1], cutoff, p)
                   <==> NamesAgent(markers[..n], cutoff, p) || NamedBy(markers[n], cutoff, p)
  {
    var front, m := markers[..n], markers[n];
    assert markers[..n + 1] == front + [m];
    forall p ensures NamesAgent(front + [m], cutoff, p)
                <==> NamesAgent(front, cutoff, p) || NamedBy(m, cutoff, p) {
      NamesAgentAppend(front, m, cutoff, p);
    }
  }

  lemma NamesAgentAppend(front: seq<Marker>, m: Marker, cutoff: nat, p: string)
    ensures NamesAgent(front + [m], cutoff, p)
       <==> NamesAgent(front, cutoff, p) || NamedBy(m, cutoff, p)
  {
    var more := front + [m];
    assert more[|front|] == m;
    if i :| 0 <= i < |front| && NamedBy(front[i], cutoff, p) { assert more[i] == front[i]; }
    if i :| 0 <= i < |more| && NamedBy(more[i], cutoff, p) {
      assert i < |front| ==> more[i] == front[i];
    }
  }

  /** How a pass ended. */
  datatype Outcome =
    | Idle
    /** The directory is excluded from capture. */
    | Excluded
    /** The transcript is gone. */
    | Unreadable
    | NothingMissing
    | OutboxDown
    /** The outbox refused an event partway. */
    | Interrupted
    | Complete

  predicate Clears(o: Outcome)
  {
    o == Excluded || o == Unreadable || o == NothingMissing || o == Complete
  }

  /** The agents' anchors, in the order the markers name their files; a file that is gone is passed over. */
  method AgentAnchors(files: seq<SourceFile>, paths: seq<string>) returns (agents: seq<seq<Anchor>>)
    ensures agents == AnchorsOf(files, paths)
  {
    agents := [];
    for i := 0 to |paths|
      invariant agents == AnchorsOf(files, paths[..i])
    {
      assert paths[..i + 1][..i] == paths[..i];
      var k := FileAt(files, paths[i]);
      if k >= 0 { agents := agents + [Anchors(files[k].lines)]; }
    }
    assert paths[..|paths|] == paths;
  }

  function AnchorsOf(files: seq<SourceFile>, paths: seq<string>): seq<seq<Anchor>>
  {
    if paths == [] then []
    else
      var n := |paths| - 1;
      var k := FileAt(files, paths[n]);
      AnchorsOf(files, paths[..n]) + if k >= 0 then [Anchors(files[k].lines)] else []
  }

  /** The whole diff of a session: its main transcript's, and the tool half of every subagent's. */
  method Diff(main: seq<Anchor>, agents: seq<seq<Anchor>>, have: Captured, ghost entries: seq<Entry>)
    returns (accepted: set<string>)
    requires Reads(have, entries)
    ensures IsDiff(main, agents, entries, accepted)
  {
    hide IsDiff, AcceptsLost, AcceptsTools, Reads;
    accepted := MissingRecords(main, have);
    DiffMain(main, have, entries, accepted);
    for k := 0 to |agents|
      invariant IsDiff(main, agents[..k], entries, accepted)
    {
      var tools := MissingToolRecords(agents[k], have);
      DiffStep(main, agents[..k], agents[k], have, entries, accepted, tools);
      accepted := accepted + tools;
      assert agents[..k + 1] == agents[..k] + [agents[k]];
    }
    assert agents[..|agents|] == agents;
  }

  lemma DiffMain(main: seq<Anchor>, have: Captured, entries: seq<Entry>, accepted: set<string>)
    requires Reads(have, entries) && AcceptsLost(main, have, accepted)
    ensures IsDiff(main, [], entries, accepted)
  {
    hide Have, Met, Carried;
    forall uuid ensures uuid in accepted <==> exists need :: Lost(main, [], entries, uuid, need) {
      if need :| Carried(main, uuid, need) && !Have(have, need) { assert Lost(main, [], entries, uuid, need); }
      if need :| Lost(main, [], entries, uuid, need) { assert Carried(main, uuid, need) && !Have(have, need); }
    }
  }

  lemma WantedStep(main: seq<Anchor>, agents: seq<seq<Anchor>>, agent: seq<Anchor>, uuid: string, need: Need)
    ensures Wanted(main, agents + [agent], uuid, need)
       <==> Wanted(main, agents, uuid, need) || ToolCarried(agent, uuid, need)
  {
    hide Carried, ToolCarried;
    var more := agents + [agent];
    assert more[|agents|] == agent;
    if n :| 0 <= n < |agents| && ToolCarried(agents[n], uuid, need) { assert ToolCarried(more[n], uuid, need); }
    if n :| 0 <= n < |more| && ToolCarried(more[n], uuid, need) {
      assert n < |agents| ==> ToolCarried(agents[n], uuid, need);
    }
  }

  lemma DiffStep(main: seq<Anchor>, agents: seq<seq<Anchor>>, agent: seq<Anchor>, have: Captured, entries: seq<Entry>,
                 before: set<string>, tools: set<string>)
    requires Reads(have, entries) && AcceptsTools(agent, have, tools) && IsDiff(main, agents, entries, before)
    ensures IsDiff(main, agents + [agent], entries, before + tools)
  {
    hide Have, Met, Wanted, ToolCarried;
    var more := agents + [agent];
    forall uuid ensures uuid in before + tools <==> exists need :: Lost(main, more, entries, uuid, need) {
      if need :| ToolCarried(agent, uuid, need) && !Have(have, need) {
        WantedStep(main, agents, agent, uuid, need);
        assert Lost(main, more, entries, uuid, need);
      }
      if need :| Lost(main, agents, entries, uuid, need) {
        WantedStep(main, agents, agent, uuid, need);
        assert Lost(main, more, entries, uuid, need);
      }
      if need :| Lost(main, more, entries, uuid, need) {
        WantedStep(main, agents, agent, uuid, need);
        assert Lost(main, agents, entries, uuid, need) || (ToolCarried(agent, uuid, need) && !Have(have, need));
      }
    }
  }

  /** What a session's markers say to recoverMarked. */
  datatype Verdict =
    /** A hook may still be running: the whole session waits. */
    | TooYoung
    /** Nothing readable names a transcript. */
    | NothingToWalk
    | WalkThis(transcript: string, cwd: string)

  ghost predicate NamesTranscript(m: Marker, transcript: string, cwd: string)
  {
    m.transcript == transcript && m.cwd == cwd && transcript != ""
  }

  /** The loop over the markers: one young marker holds the session back, else the last transcript named is walked. */
  method JudgeMarkers(markers: seq<Marker>, cutoff: nat) returns (v: Verdict)
    ensures v == TooYoung <==> exists i :: 0 <= i < |markers| && markers[i].at >= cutoff
    ensures v == NothingToWalk ==> forall i :: 0 <= i < |markers| ==> markers[i].transcript == ""
    ensures v.WalkThis? ==>
              exists i :: 0 <= i < |markers| && NamesTranscript(markers[i], v.transcript, v.cwd)
                          && forall j :: i < j < |markers| ==> markers[j].transcript == ""
  {
    var path, cwd := "", "";
    var young := 0;
    ghost var at := 0;
    for n := 0 to |markers|
      invariant young == 0 <==> forall i :: 0 <= i < n ==> markers[i].at < cutoff
      invariant young == 0 && path == "" ==> forall i :: 0 <= i < n ==> markers[i].transcript == ""
      invariant young == 0 && path != "" ==>
                  && at < n && NamesTranscript(markers[at], path, cwd)
                  && forall j :: at < j < n ==> markers[j].transcript == ""
    {
      var m := markers[n];
      if m.at >= cutoff {
        young := young + 1;
        continue;
      }
      if m.transcript != "" {
        path, cwd, at := m.transcript, m.cwd, n;
      }
    }
    if young > 0 { return TooYoung; }
    if path == "" { return NothingToWalk; }
    return WalkThis(path, cwd);
  }

  /** What the session of a pass is about. */
  datatype Session = Session(id: string, transcript: string, excluded: bool)

  /** Everything of the session the ledger lacks, by the uuids of the records to walk. */
  method LostRecords(ledger: Store, id: string, files: seq<SourceFile>, main: nat, cutoff: nat)
    returns (uuids: set<string>, paths: seq<string>)
    requires main < |files|
    ensures ListsAgents(MarkersOf(ledger.Files(id), Listing(ledger.Files(id).Keys)), cutoff, paths)
    ensures IsDiff(Anchors(files[main].lines), AnchorsOf(files, paths), ledger.Lines(id), uuids)
  {
    hide IsDiff, ListsAgents, Reads;
    var have := ledger.Read(id);
    var named := AgentTranscripts(have.inflight, cutoff);
    paths := named;
    var agents := AgentAnchors(files, named);
    uuids := Diff(Anchors(files[main].lines), agents, have, ledger.Lines(id));
  }

  /** The walk over the accepted records, until the outbox refuses one. */
  method WalkLost(id: string, files: seq<SourceFile>, forks: map<string, Fork>, uuids: set<string>, room: nat)
    returns (emitted: seq<Event>, whole: bool, only: Filters)
    requires id != ""
    ensures ForPass(only, uuids) && only.session == id
    ensures var all := Kept(only, WalkAll(Belonging(files, id), forks).0);
            if whole then emitted == all else room < |all| && emitted == all[..room]
  {
    hide Kept, WalkAll;
    var filters := Filters(ZERO_TIME, (p: string) => false, id, (a: Anchor) => a.uuid in uuids);
    only := filters;
    var walk := new Walk(filters, forks);
    walk.Run(files);
    whole := |walk.out| <= room;
    emitted := if whole then walk.out else walk.out[..room];
  }

  /**
   * recoverSession. The outbox opens or not, and takes at most room events; what it took is
   * recorded in the ledger, and only a pass that ran to its end clears the settled markers.
   */
  method RecoverSession(ledger: Store, s: Session, files: seq<SourceFile>, forks: map<string, Fork>, cutoff: nat,
                        opens: bool, room: nat)
    returns (outcome: Outcome, emitted: seq<Event>, ghost accepted: set<string>, ghost paths: seq<string>,
             ghost only: Filters)
    modifies ledger
    ensures ledger.Lines(s.id) == old(ledger.Lines(s.id)) + EntriesOf(emitted)
    ensures ledger.Files(s.id)
            == if Clears(outcome) then Younger(old(ledger.Files(s.id)), cutoff) else old(ledger.Files(s.id))
    ensures outcome == Idle <==> s.id == "" || s.transcript == ""
    ensures outcome == Excluded <==> s.id != "" && s.transcript != "" && s.excluded
    ensures outcome == Unreadable
       <==> s.id != "" && s.transcript != "" && !s.excluded && FileAt(files, s.transcript) < 0
    ensures outcome in {NothingMissing, OutboxDown, Interrupted, Complete} ==>
              && FileAt(files, s.transcript) >= 0
              && ListsAgents(MarkersOf(old(ledger.Files(s.id)), Listing(old(ledger.Files(s.id)).Keys)), cutoff, paths)
              && IsDiff(Anchors(files[FileAt(files, s.transcript)].lines), AnchorsOf(files, paths),
                        old(ledger.Lines(s.id)), accepted)
    ensures outcome in {NothingMissing, OutboxDown, Interrupted, Complete} ==>
              (outcome == NothingMissing <==> accepted == {})
    ensures outcome in {Complete, Interrupted} ==>
              && ForPass(only, accepted) && only.session == s.id
              && var all := Kept(only, WalkAll(Belonging(files, s.id), forks).0);
                 if outcome == Complete then emitted == all else room < |all| && emitted == all[..room]
    ensures outcome !in {Complete, Interrupted} ==> emitted == []
  {
    hide IsDiff, Kept, WalkAll, EntryOf, ListsAgents, ForPass, Younger, Anchors, AnchorsOf, MarkersOf, Listing, FileAt,
         Belonging;
    emitted, accepted, paths, only := [], {}, [], OPEN;
    assert old(ledger.Lines(s.id)) + [] == old(ledger.Lines(s.id));
    if s.transcript == "" || s.id == "" {
      outcome := Idle;
      return;
    }
    if s.excluded {
      ledger.ClearInflightBefore(s.id, cutoff);
      outcome := Excluded;
      return;
    }
    var main := FileAt(files, s.transcript);
    if main < 0 {
      ledger.ClearInflightBefore(s.id, cutoff);
      outcome := Unreadable;
      return;
    }
    var uuids, named := LostRecords(ledger, s.id, files, main, cutoff);
    accepted, paths := uuids, named;
    if uuids == {} {
      ledger.ClearInflightBefore(s.id, cutoff);
      outcome := NothingMissing;
      return;
    }
    if !opens {
      outcome := OutboxDown;
      return;
    }
    var found, whole, filters := WalkLost(s.id, files, forks, uuids, room);
    emitted, only := found, filters;
    ledger.Append(s.id, EntriesOf(emitted));
    if !whole {
      outcome := Interrupted;
      return;
    }
    ledger.ClearInflightBefore(s.id, cutoff);
    outcome := Complete;
  }

  // -------------------------------------------------------------- a second pass

  /** The anchors are those of the file at that path. */
  predicate AnchorsAt(files: seq<SourceFile>, path: string, a: seq<Anchor>)
  {
    FileAt(files, path) >= 0 && a == Anchors(files[FileAt(files, path)].lines)
  }

  lemma {:induction false} AnchorsOfHas(files: seq<SourceFile>, paths: seq<string>, a: seq<Anchor>)
    ensures a in AnchorsOf(files, paths) <==> exists p :: p in paths && AnchorsAt(files, p, a)
  {
    hide FileAt, Anchors;
    if paths != [] {
      var front, last := paths[..|paths| - 1], paths[|paths| - 1];
      AnchorsOfHas(files, front, a);
      assert paths == front + [last];
      assert AnchorsOf(files, paths)
          == AnchorsOf(files, front)
             + if FileAt(files, last) >= 0 then [Anchors(files[FileAt(files, last)].lines)] else [];
      hide AnchorsOf;
      assert a in AnchorsOf(files, paths) <==> a in AnchorsOf(files, front) || AnchorsAt(files, last, a);
    }
  }

  /** What a transcript no longer named wants is not asked for. */
  lemma FewerAgents(main: seq<Anchor>, agents: seq<seq<Anchor>>, fewer: seq<seq<Anchor>>, entries: seq<Entry>)
    requires NothingLost(main, agents, entries) && forall a :: a in fewer ==> a in agents
    ensures NothingLost(main, fewer, entries)
  {
    hide Carried, ToolCarried, Met;
    forall uuid, need ensures !Lost(main, fewer, entries, uuid, need) {
      assert !Lost(main, agents, entries, uuid, need);
      if k :| 0 <= k < |fewer| && ToolCarried(fewer[k], uuid, need) {
        assert fewer[k] in agents;
        var n :| 0 <= n < |agents| && agents[n] == fewer[k];
        assert Wanted(main, agents, uuid, need);
      }
    }
  }

  lemma {:induction false} MarkersFrom(files: map<string, MarkerFile>, names: seq<string>, m: Marker)
    requires forall n :: n in names ==> n in files
    ensures m in MarkersOf(files, names) <==> exists n :: n in names && files[n] == Whole(m)
  {
    if names != [] {
      var front, last := names[..|names| - 1], names[|names| - 1];
      MarkersFrom(files, front, m);
      assert names == front + [last];
    }
  }

  lemma YoungerMarkers(files: map<string, MarkerFile>, cutoff: nat, m: Marker)
    requires m in MarkersOf(Younger(files, cutoff), Listing(Younger(files, cutoff).Keys))
    ensures m in MarkersOf(files, Listing(files.Keys))
  {
    var left := Younger(files, cutoff);
    MarkersFrom(left, Listing(left.Keys), m);
    MarkersFrom(files, Listing(files.Keys), m);
    hide Before, Listing, MarkersOf;
  }

  lemma AgentsFewer(files: map<string, MarkerFile>, cutoff: nat, paths: seq<string>, left: seq<string>)
    requires ListsAgents(MarkersOf(files, Listing(files.Keys)), cutoff, paths)
    requires ListsAgents(MarkersOf(Younger(files, cutoff), Listing(Younger(files, cutoff).Keys)), cutoff, left)
    ensures forall p :: p in left ==> p in paths
  {
    hide Younger, Listing, MarkersOf;
    var before := MarkersOf(files, Listing(files.Keys));
    var after := MarkersOf(Younger(files, cutoff), Listing(Younger(files, cutoff).Keys));
    forall p | p in left ensures p in paths {
      var i :| 0 <= i < |after| && NamedBy(after[i], cutoff, p);
      assert after[i] in after;
      YoungerMarkers(files, cutoff, after[i]);
      var k :| 0 <= k < |before| && before[k] == after[i];
      assert NamesAgent(before, cutoff, p);
    }
  }

  /** With the markers cleared, the second diff asks for no more than the first, so it accepts nothing. */
  lemma SecondAccepts(files: seq<SourceFile>, markers: map<string, MarkerFile>, cutoff: nat, main: seq<Anchor>,
                      paths: seq<string>, left: seq<string>, entries: seq<Entry>, again: set<string>)
    requires ListsAgents(MarkersOf(markers, Listing(markers.Keys)), cutoff, paths)
    requires ListsAgents(MarkersOf(Younger(markers, cutoff), Listing(Younger(markers, cutoff).Keys)), cutoff, left)
    requires NothingLost(main, AnchorsOf(files, paths), entries)
    requires IsDiff(main, AnchorsOf(files, left), entries, again)
    ensures again == {}
  {
    AgentsFewer(markers, cutoff, paths, left);
    hide ListsAgents, Anchors, AnchorsOf, MarkersOf, Listing, Younger, FileAt, NothingLost, IsDiff, AnchorsAt;
    forall a | a in AnchorsOf(files, left) ensures a in AnchorsOf(files, paths) {
      AnchorsOfHas(files, left, a);
      AnchorsOfHas(files, paths, a);
    }
    FewerAgents(main, AnchorsOf(files, paths), AnchorsOf(files, left), entries);
    SecondDiff(main, AnchorsOf(files, left), entries, again);
  }

  /** Every need the pass finds lost is met by the events of a record it walks. */
  ghost predicate AllReadBack(files: seq<SourceFile>, forks: map<string, Fork>, main: seq<Anchor>,
                              agents: seq<seq<Anchor>>, entries: seq<Entry>, accepted: set<string>)
  {
    forall uuid, need :: Lost(main, agents, entries, uuid, need) ==> AcceptedMeets(files, forks, accepted, need)
  }

  /**
   * Two passes in a row. Where the first one found nothing missing, or ran to its end over records
   * that give back all that was lost, the second finds nothing missing and emits nothing.
   */
  method RecoverTwice(ledger: Store, s: Session, files: seq<SourceFile>, forks: map<string, Fork>, cutoff: nat,
                      opens: bool, room: nat, opensAgain: bool, roomAgain: nat)
    returns (first: Outcome, emitted: seq<Event>, second: Outcome, again: seq<Event>, ghost accepted: set<string>,
             ghost paths: seq<string>)
    modifies ledger
    ensures first in {NothingMissing, Complete} ==>
              && FileAt(files, s.transcript) >= 0
              && var main := Anchors(files[FileAt(files, s.transcript)].lines);
                 first == NothingMissing
                 || AllReadBack(Belonging(files, s.id), forks, main, AnchorsOf(files, paths), old(ledger.Lines(s.id)),
                                accepted)
                 ==> second == NothingMissing && again == []
  {
    hide IsDiff, Kept, WalkAll, ListsAgents, ForPass, Younger, Anchors, AnchorsOf, MarkersOf, Listing, FileAt,
         Belonging, NothingLost, AllReadBack;
    ghost var before, markers := ledger.Lines(s.id), ledger.Files(s.id);
    ghost var only;
    first, emitted, accepted, paths, only := RecoverSession(ledger, s, files, forks, cutoff, opens, room);
    ghost var between := ledger.Lines(s.id);
    ghost var accepted', left, only';
    second, again, accepted', left, only' := RecoverSession(ledger, s, files, forks, cutoff, opensAgain, roomAgain);
    if first in {NothingMissing, Complete} {
      ghost var main := Anchors(files[FileAt(files, s.transcript)].lines);
      if first == NothingMissing {
        assert between == before;
        SecondDiff(main, AnchorsOf(files, paths), before, accepted);
        SecondAccepts(files, markers, cutoff, main, paths, left, between, accepted');
      } else if AllReadBack(Belonging(files, s.id), forks, main, AnchorsOf(files, paths), before, accepted) {
        ReadBackLosesNothing(only, Belonging(files, s.id), forks, main, AnchorsOf(files, paths), before, accepted);
        SecondAccepts(files, markers, cutoff, main, paths, left, between, accepted');
      }
    }
  }

  lemma ReadBackLosesNothing(o: Filters, files: seq<SourceFile>, forks: map<string, Fork>, main: seq<Anchor>,
                             agents: seq<seq<Anchor>>, entries: seq<Entry>, accepted: set<string>)
    requires ForPass(o, accepted) && AllReadBack(files, forks, main, agents, entries, accepted)
    ensures NothingLost(main, agents, entries + EntriesOf(Kept(o, WalkAll(files, forks).0)))
  {
    hide WalkAll, Kept, MetByOne, AcceptedMeets, ForPass, Lost;
    var emitted := Kept(o, WalkAll(files, forks).0);
    PassExact(main, agents, entries, emitted);
    forall uuid, need | Lost(main, agents, entries, uuid, need) ensures MetByOne(emitted, need) {
      EmittedExact(o, files, forks, accepted, need);
    }
  }

  ghost const OPEN := Filters(ZERO_TIME, (p: string) => false, "", (a: Anchor) => true)

  // ------------------------------------------------------- the pass among the hooks

  ghost predicate ReadsBack(files: seq<SourceFile>, forks: map<string, Fork>, main: seq<Anchor>,
                            agents: seq<seq<Anchor>>, need: Need)
  {
    exists uuid :: Wanted(main, agents, uuid, need) && SomeRecoverable(files, forks, uuid, need)
  }

  /** What the transcripts want that the walk can read back. */
  ghost function Readable(files: seq<SourceFile>, forks: map<string, Fork>, main: seq<Anchor>, agents: seq<seq<Anchor>>)
    : iset<Need>
  {
    iset need | ReadsBack(files, forks, main, agents, need)
  }

  /** A pass that found nothing missing or ran to its end has met all it could read back. */
  lemma PassCompletes(o: Filters, files: seq<SourceFile>, forks: map<string, Fork>, main: seq<Anchor>,
                      agents: seq<seq<Anchor>>, entries: seq<Entry>, accepted: set<string>, w: H.Work)
    requires ForPass(o, accepted) && IsDiff(main, agents, entries, accepted)
    requires w.wants == Readable(files, forks, main, agents) && w.have == entries
    requires w.emitted == if accepted == {} then [] else EntriesOf(Kept(o, WalkAll(files, forks).0))
    ensures H.Completed(w)
  {
    hide WalkAll, Kept, SomeRecoverable, ForPass, Met, Wanted;
    forall need | need in w.wants ensures Met(w.have + w.emitted, need) {
      var uuid :| Wanted(main, agents, uuid, need) && SomeRecoverable(files, forks, uuid, need);
      if accepted == {} {
        assert w.have + w.emitted == entries;
        SecondDiff(main, agents, entries, accepted);
        assert !Lost(main, agents, entries, uuid, need);
      } else {
        WantedIsMet(o, files, forks, main, agents, entries, accepted, uuid, need);
      }
    }
  }

  /**
   * From the hook to the outbox: once a pass over a transcript has cleared a marker, whatever a
   * walked and fit record of that transcript shows is in the outbox, and on the ledger where the
   * pass could write it - in every interleaving of hooks and passes.
   */
  lemma FitRecordIsRecovered(steps: seq<H.Step>, id: H.Id, files: seq<SourceFile>, forks: map<string, Fork>,
                             main: seq<Anchor>, agents: seq<seq<Anchor>>, i: nat, need: Need)
    requires H.Run(H.START, steps) && i < |main| && Requires(main, i, need) && Sound(files, forks, main[i], false)
    requires id in H.Final(H.START, steps).settled && H.Final(H.START, steps).settled[id].why.Walked?
    requires H.Final(H.START, steps).settled[id].why.work.wants == Readable(files, forks, main, agents)
    ensures
      var s := H.Final(H.START, steps);
      Met(s.outbox, need) && (s.settled[id].why.logged ==> Met(s.ledger, need))
  {
    hide H.Run, H.Final, SomeRecoverable, Sound, Met;
    H.LostEventIsRecovered(steps, id, need);
    RequiresAsks(main, i, need);
    SoundIsRecoverable(files, forks, main[i], false, need);
    assert Carried(main, main[i].uuid, need);
    assert Wanted(main, agents, main[i].uuid, need);
    assert ReadsBack(files, forks, main, agents, need);
  }
}
