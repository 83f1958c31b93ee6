/**
 * Forks: a transcript that opens with another's records. The index counts, ahead of
 * the walk, the numbers the copied prefix will take, and tells the copy from the origin.
 */
module Forks {
  import opened Events
  import opened Names
  import opened Encoding
  import opened Transcript
  import opened Walker
  import opened Numbering

  // --------------------------------------------------------------- prefixSeq

  /** A content record the parent does not hold: the copied prefix ends before it. */
  predicate Foreign(l: Line, parentUuids: set<string>)
  {
    Usable(l) && l.rec.uuid != "" && IsContentType(l.rec.kind) && l.rec.uuid !in parentUuids
  }

  ghost predicate EndsPrefix(lines: seq<Line>, parentUuids: set<string>, p: nat)
  {
    && p <= |lines|
    && (forall i :: 0 <= i < p ==> !Foreign(lines[i], parentUuids))
    && (p < |lines| ==> Foreign(lines[p], parentUuids))
  }

  /** What the count knows after some lines. */
  datatype Copied = Copied(count: nat, clock: Time)

  function CountLine(c: Copied, l: Line): Copied
  {
    if !Usable(l) || (Sidechain(l.rec) && c.count > 0) then c
    else match l.rec.timestamp
      case Some(t) => Copied(c.count + |Build(l.rec)|, t)
      case None => if c.clock == ZERO_TIME then c else c.(count := c.count + |Build(l.rec)|)
  }

  function CountLines(lines: seq<Line>): Copied
  {
    if lines == [] then Copied(0, ZERO_TIME)
    else CountLine(CountLines(lines[..|lines| - 1]), lines[|lines| - 1])
  }

  /** The count prefixSeq makes: over the lines before the first the parent does not hold. */
  method PrefixSeq(lines: seq<Line>, parentUuids: set<string>) returns (n: nat)
    ensures exists p: nat :: EndsPrefix(lines, parentUuids, p) && n == CountLines(lines[..p]).count
  {
    hide Build, Ignored, Sidechain;
    n := 0;
    var clock: Time := ZERO_TIME;
    var i := 0;
    ghost var p := 0;
    while i < |lines|
      invariant i == p <= |lines|
      invariant forall j :: 0 <= j < p ==> !Foreign(lines[j], parentUuids)
      invariant CountLines(lines[..p]) == Copied(n, clock)
    {
      var l := lines[i];
      if Usable(l) && l.rec.uuid != "" && IsContentType(l.rec.kind) && l.rec.uuid !in parentUuids {
        assert EndsPrefix(lines, parentUuids, p);
        return;
      }
      assert lines[..i + 1][..i] == lines[..i];
      i, p := i + 1, p + 1;
      if !Usable(l) || (Sidechain(l.rec) && n > 0) { continue; }
      match l.rec.timestamp {
        case Some(t) => clock := t;
        case None => if clock == ZERO_TIME { continue; }
      }
      var parts := BuildRecord(l.rec);
      n := n + |parts|;
    }
    assert EndsPrefix(lines, parentUuids, p);
  }

  /**
   * A record the count and the walk treat differently: the count asks whether anything was
   * counted, the walk whether anything was started, and a file reclassified as a subagent's
   * has no such test at all.
   */
  predicate Drifts(st: FileState, c: Copied, l: Line)
  {
    && Usable(l) && Sidechain(l.rec) && Build(l.rec) != []
    && if st.kind == SessionFile then st.started != {} && c.count == 0 else c.count > 0
  }

  predicate Drifted(f: SourceFile, fork: Option<Fork>, w: Streams, lines: seq<Line>)
  {
    lines != []
    && var k := |lines| - 1;
       Drifted(f, fork, w, lines[..k]) || Drifts(WalkLines(f, fork, w, lines[..k]).st, CountLines(lines[..k]), lines[k])
  }

  ghost predicate OfSession(lines: seq<Line>, session: string)
  {
    forall i :: 0 <= i < |lines| && Usable(lines[i]) ==> lines[i].rec.sessionId == session
  }

  ghost predicate NoSidechains(lines: seq<Line>)
  {
    forall i :: 0 <= i < |lines| && Usable(lines[i]) ==> !Sidechain(lines[i].rec)
  }

  /** No record is stamped with the year 1, which the clock takes for no time at all. */
  ghost predicate RealTimes(lines: seq<Line>)
  {
    forall i :: 0 <= i < |lines| && Usable(lines[i]) ==> lines[i].rec.timestamp != Some(ZERO_TIME)
  }

  ghost predicate Unused(w: Streams, session: string)
  {
    forall agentId :: NumberOf(w.seqs, StreamKey(session, agentId)) == 0
  }

  ghost predicate Consecutive(events: seq<Numbered>)
  {
    forall i :: 0 <= i < |events| ==> events[i].event.seqNo == i
  }

  /** How the walk over some lines and the count over the same lines stand to each other. */
  ghost predicate Mirrored(run: Walked, c: Copied, session: string, drifted: bool)
  {
    && run.st.kind != JournalFile && Consecutive(run.events)
    && (run.st.clock == ZERO_TIME <==> c.clock == ZERO_TIME)
    && if run.st.started == {} then
         run.events == [] && c.count == 0 && Unused(run.streams, session) && !drifted
       else
         var stream := StreamKey(session, run.st.agentId);
         && run.st.started == {stream} && run.events != [] && NumberOf(run.streams.seqs, stream) == |run.events|
         && (if run.st.kind == SessionFile then c.count >= |run.events| - 1 else |run.events| - 1 >= c.count)
         && (c.count == |run.events| - 1 <==> !drifted)
  }

  lemma {:induction false} NumberAllSeqs(f: SourceFile, a: Anchor, drafts: seq<Draft>, n: nat)
    ensures forall i :: 0 <= i < |drafts| ==> NumberAll(f, a, drafts, n)[i].event.seqNo == n + i
  {
    hide IdText, Discriminator;
    if drafts != [] {
      var k := |drafts| - 1;
      NumberAllSeqs(f, a, drafts[..k], n);
      forall i | 0 <= i < k ensures NumberAll(f, a, drafts, n)[i].event.seqNo == n + i {
        assert NumberAll(f, a, drafts, n)[i] == NumberAll(f, a, drafts[..k], n)[i];
      }
    }
  }

  /** An accepted record adds its start, if it opens the stream, and one event per part, numbered on. */
  lemma RecordAdds(f: SourceFile, fork: Option<Fork>, run: Walked, st: FileState, r: Record)
    requires Consecutive(run.events)
    requires NumberOf(run.streams.seqs, StreamKey(r.sessionId, st.agentId)) == |run.events|
    ensures var stream := StreamKey(r.sessionId, st.agentId);
            var step := WalkRecord(f, fork, st, run.streams, r);
            && |step.events| == |Build(r)| + (if stream in st.started then 0 else 1)
            && Consecutive(run.events + step.events)
            && step.st == st.(started := st.started + {stream})
            && (NumberOf(step.streams.seqs, stream) == |run.events| + |step.events|)
  {
    hide AnchorOf, Base, StartDraft, PartDrafts, NumberAll, Build, StreamKey;
    var stream := StreamKey(r.sessionId, st.agentId);
    var marks := if r.parentMark != "" then run.streams.marks[stream := r.parentMark] else run.streams.marks;
    NumberAllSeqs(f, AnchorOf(r), Drafts(st, r, MarkOf(marks, stream), fork), |run.events|);
  }

  lemma SkipMirrored(run: Walked, c: Copied, session: string, drifted: bool)
    requires Mirrored(run, c, session, drifted)
    ensures Mirrored(run.(events := run.events + []), c, session, drifted)
  {
    assert run.events + [] == run.events;
  }

  /** One usable line, by what the walk and the count do with it. */
  lemma LineMirrored(f: SourceFile, fork: Option<Fork>, run: Walked, c: Copied, session: string, drifted: bool, l: Line)
    requires Mirrored(run, c, session, drifted)
    requires Usable(l) && l.rec.sessionId == session
    requires Sidechain(l.rec) && run.st.started != {} ==>
               l.rec.timestamp != Some(ZERO_TIME) && run.st.clock != ZERO_TIME
    ensures var step := WalkLine(f, fork, run.st, run.streams, l);
            Mirrored(step.(events := run.events + step.events), CountLine(c, l), session,
                     drifted || Drifts(run.st, c, l))
  {
    hide Build, Ignored, Sidechain, AgentName, WalkRecord;
    var r := l.rec;
    assert run.events + [] == run.events;
    if !Misfiled(run.st, r) && Clocked(run.st, r) {
      var now := Ticked(Attributed(f, run.st, r), r);
      assert NumberOf(run.streams.seqs, StreamKey(session, now.agentId)) == |run.events|;
      RecordAdds(f, fork, run, now, r);
    }
  }

  lemma UnusableSkipped(f: SourceFile, fork: Option<Fork>, run: Walked, c: Copied, l: Line)
    requires !Usable(l)
    ensures WalkLine(f, fork, run.st, run.streams, l) == Walked([], run.st, run.streams)
    ensures CountLine(c, l) == c && !Drifts(run.st, c, l)
  {
  }

  lemma {:induction false} StartedHasClock(f: SourceFile, fork: Option<Fork>, w: Streams, lines: seq<Line>)
    requires RealTimes(lines)
    ensures var st := WalkLines(f, fork, w, lines).st; st.started != {} ==> st.clock != ZERO_TIME
  {
    if lines != [] {
      hide Drafts, Ignored, Sidechain, AgentName;
      var k := |lines| - 1;
      StartedHasClock(f, fork, w, lines[..k]);
    }
  }

  lemma {:induction false} LinesMirrored(f: SourceFile, fork: Option<Fork>, w: Streams, lines: seq<Line>,
                                         session: string)
    requires f.kind == SessionFile && Unused(w, session) && OfSession(lines, session)
    requires NoSidechains(lines) || RealTimes(lines)
    ensures Mirrored(WalkLines(f, fork, w, lines), CountLines(lines), session, Drifted(f, fork, w, lines))
  {
    if lines != [] {
      hide Build, Usable, Sidechain, CountLine, Drifts, Mirrored, WalkLine;
      var k := |lines| - 1;
      LinesMirrored(f, fork, w, lines[..k], session);
      var run, c, l := WalkLines(f, fork, w, lines[..k]), CountLines(lines[..k]), lines[k];
      if RealTimes(lines) { StartedHasClock(f, fork, w, lines[..k]); }
      if Usable(l) {
        LineMirrored(f, fork, run, c, session, Drifted(f, fork, w, lines[..k]), l);
      } else {
        SkipMirrored(run, c, session, Drifted(f, fork, w, lines[..k]));
        UnusableSkipped(f, fork, run, c, l);
      }
    } else {
      assert WalkLines(f, fork, w, lines).streams == w;
    }
  }

  lemma {:induction false} NoSidechainsNoDrift(f: SourceFile, fork: Option<Fork>, w: Streams, lines: seq<Line>)
    requires NoSidechains(lines)
    ensures !Drifted(f, fork, w, lines)
  {
    if lines != [] {
      hide Build, WalkLines;
      NoSidechainsNoDrift(f, fork, w, lines[..|lines| - 1]);
    }
  }

  lemma {:induction false} WalkGrows(f: SourceFile, fork: Option<Fork>, w: Streams, lines: seq<Line>, p: nat)
    requires p <= |lines|
    ensures WalkLines(f, fork, w, lines[..p]).events <= WalkLines(f, fork, w, lines).events
    decreases |lines|
  {
    if p < |lines| {
      hide WalkLine;
      var k := |lines| - 1;
      WalkGrows(f, fork, w, lines[..k], p);
      assert lines[..k][..p] == lines[..p];
    } else {
      assert lines[..p] == lines;
    }
  }

  /**
   * The number the walk gives the last event of the copied prefix; the walk of the whole child
   * begins with these events.
   */
  ghost predicate LastOfPrefix(f: SourceFile, forks: map<string, Fork>, w: Streams, p: nat, n: nat)
    requires p <= |f.lines|
  {
    var prefix := WalkLines(f, ForkOf(forks, f.path), w, f.lines[..p]).events;
    && prefix <= WalkFile(f, forks, w).events
    && if prefix == [] then n == 0 else prefix[|prefix| - 1].event.seqNo == n
  }

  /**
   * For a child on an unused stream whose copied prefix carries one session id, the precomputed
   * number is the one the walk gives the last inherited event exactly when no record of the
   * prefix drifts.
   */
  lemma ForkPrefixExact(f: SourceFile, forks: map<string, Fork>, w: Streams, session: string, p: nat)
    requires f.kind == SessionFile && Unused(w, session) && p <= |f.lines| && OfSession(f.lines[..p], session)
    requires NoSidechains(f.lines[..p]) || RealTimes(f.lines[..p])
    ensures LastOfPrefix(f, forks, w, p, CountLines(f.lines[..p]).count)
       <==> !Drifted(f, ForkOf(forks, f.path), w, f.lines[..p])
  {
    hide WalkLines, CountLines, Drifted;
    LinesMirrored(f, ForkOf(forks, f.path), w, f.lines[..p], session);
    WalkGrows(f, ForkOf(forks, f.path), w, f.lines, p);
  }

  /** Without sidechain records in the prefix the two always agree. */
  lemma ForkPrefixAgrees(f: SourceFile, forks: map<string, Fork>, w: Streams, session: string, p: nat)
    requires f.kind == SessionFile && Unused(w, session) && p <= |f.lines| && OfSession(f.lines[..p], session)
    requires NoSidechains(f.lines[..p])
    ensures LastOfPrefix(f, forks, w, p, CountLines(f.lines[..p]).count)
  {
    hide WalkLines, CountLines, Drifted, LastOfPrefix;
    ForkPrefixExact(f, forks, w, session, p);
    NoSidechainsNoDrift(f, ForkOf(forks, f.path), w, f.lines[..p]);
  }

  const SPOKEN := BLANK.(kind := "assistant", sessionId := "s", timestamp := Some(2), text := "x", isSidechain := true)
  const CHILD := SourceFile("c", "s", SessionFile, "", "", "s", 2, 2, [Good(OPENING), Good(SPOKEN)])

  lemma Builds()
    ensures Build(OPENING) == [] && |Build(SPOKEN)| == 1
    ensures Usable(Good(OPENING)) && Usable(Good(SPOKEN))
  {
  }

  lemma AfterOpening(w: Streams)
    ensures var st := WalkLines(CHILD, None, w, [Good(OPENING)]).st; st.started != {} && st.kind == SessionFile
    ensures CountLines([Good(OPENING)]) == Copied(0, 1)
  {
    hide Build, Ignored, Drafts, NumberAll, AnchorOf;
    Builds();
    var lines := [Good(OPENING)];
    assert lines[..0] == [];
    assert WalkLines(CHILD, None, w, lines[..0]).st == Opened(CHILD);
  }

  /** The count takes a misfiled record that comes before anything was counted; the walk skips it. */
  lemma SidechainMiscounts()
    ensures CountLines(CHILD.lines).count == 1
    ensures !LastOfPrefix(CHILD, map[], Streams(map[], map[]), 2, 1)
  {
    hide Build, Ignored, WalkLine, LastOfPrefix;
    var w := Streams(map[], map[]);
    var lines := CHILD.lines;
    Builds();
    AfterOpening(w);
    assert lines[..2] == lines && lines[..1] == [Good(OPENING)];
    assert Drifted(CHILD, None, w, lines);
    ForkPrefixExact(CHILD, map[], w, "s", 2);
  }

  // ---------------------------------------------------------- copy or origin

  /** What every member of a group holds. */
  method SharedUuids(sets: seq<map<string, string>>) returns (shared: set<string>)
    ensures sets == [] ==> shared == {}
    ensures sets != [] ==> forall id :: id in shared <==> forall i :: 0 <= i < |sets| ==> id in sets[i]
  {
    shared := {};
    if sets == [] { return; }
    shared := sets[0].Keys;
    for i := 1 to |sets|
      invariant forall id :: id in shared <==> forall j :: 0 <= j < i ==> id in sets[j]
    {
      var left := shared;
      while left != {}
        invariant left <= shared
        invariant forall id :: id in shared ==> forall j :: 0 <= j < i ==> id in sets[j]
        invariant forall id :: id in shared - left ==> id in sets[i]
        invariant forall id :: (forall j :: 0 <= j <= i ==> id in sets[j]) ==> id in shared
        decreases |left|
      {
        var id :| id in left;
        left := left - {id};
        if id !in sets[i] { shared := shared - {id}; }
      }
    }
  }

  /** The file's first-turn id is carried outside the shared prefix. */
  ghost predicate Leaks(prompts: map<string, string>, shared: set<string>, first: string)
  {
    first != "" && exists id :: id in prompts && prompts[id] == first && id !in shared
  }

  method PromptLeaks(prompts: map<string, string>, shared: set<string>, first: string) returns (leaks: bool)
    ensures leaks <==> Leaks(prompts, shared, first)
  {
    if first == "" { return false; }
    var left := prompts.Keys;
    while left != {}
      invariant left <= prompts.Keys
      invariant forall id :: id in prompts.Keys - left ==> !(prompts[id] == first && id !in shared)
      decreases |left|
    {
      var id :| id in left;
      left := left - {id};
      if prompts[id] == first && id !in shared { return true; }
    }
    return false;
  }

  datatype Member = Member(path: string, rewrote: bool, birth: Time)

  /** Origin first, then the file that existed first, then the earlier path. */
  predicate Precedes(a: Member, b: Member)
  {
    if a.rewrote != b.rewrote then !a.rewrote
    else if a.birth != b.birth then a.birth < b.birth
    else LexLess(a.path, b.path)
  }

  lemma PrecedesIsAnOrder(a: Member, b: Member, c: Member)
    ensures !Precedes(a, a)
    ensures Precedes(a, b) && Precedes(b, c) ==> Precedes(a, c)
    ensures a.path != b.path ==> Precedes(a, b) || Precedes(b, a)
  {
    LexIrreflexive(a.path);
    LexTotal(a.path, b.path);
    if LexLess(a.path, b.path) && LexLess(b.path, c.path) { LexTransitive(a.path, b.path, c.path); }
  }

  ghost predicate IsParent(m: Member, group: set<Member>)
  {
    m in group && forall o :: o in group && o != m ==> Precedes(m, o)
  }

  /** Whatever order the group is met in there is one parent, and it is a file that rewrote nothing if there is one. */
  lemma OneParent(group: set<Member>, m: Member, m': Member)
    requires IsParent(m, group) && IsParent(m', group)
    ensures m == m'
    ensures m.rewrote ==> forall o :: o in group ==> o.rewrote
  {
    if m != m' { PrecedesIsAnOrder(m, m', m); }
  }

  method Parent(group: seq<Member>) returns (parent: Member)
    requires group != []
    requires forall i, j :: 0 <= i < j < |group| ==> group[i].path != group[j].path
    ensures IsParent(parent, set m | m in group)
  {
    parent := group[0];
    for i := 1 to |group|
      invariant parent in group[..i]
      invariant forall j :: 0 <= j < i ==> group[j] == parent || Precedes(parent, group[j])
    {
      var was := parent;
      PrecedesIsAnOrder(group[i], was, was);
      if Precedes(group[i], parent) { parent := group[i]; }
      forall j | 0 <= j <= i ensures group[j] == parent || Precedes(parent, group[j]) {
        PrecedesIsAnOrder(parent, was, group[j]);
        PrecedesIsAnOrder(was, group[i], was);
      }
    }
  }
}
