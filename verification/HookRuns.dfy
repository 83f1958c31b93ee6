/**
 * Hooks of one session and the recovery passes over it, interleaved step by step. A hook can
 * be killed at any point; its marker is what tells a later pass to look in the transcript.
 */
module HookRuns {
  import opened Events
  import opened Ledger

  type Id = nat

  datatype Phase =
    /** No marker yet. */
    | Beginning
    /** Translating and writing to the outbox. */
    | Writing
    /** Everything is in the outbox; the ledger lines come next. */
    | Recording
    /** The ledger has been tried; the marker goes next. */
    | Clearing
    | Ended

  /** at is when the marker was written, lines what its events leave in the ledger, put how many the outbox took. */
  datatype Hook = Hook(
    at: nat,
    transcript: string,
    agent: string,
    lines: seq<Entry>,
    put: nat,
    phase: Phase,
    marked: bool,
    recorded: bool,
    ended: nat)
  {
    predicate Live() { phase != Ended }
    predicate Spooled() { put == |lines| }
  }

  /** The transcript a pass walks, and the marker that named it; none when the daemon's state did. */
  datatype Target = Target(path: string, from: Option<Id>)

  /**
   * What a pass read and wrote: the subagent files it read and those that were gone, what the
   * transcripts want that the walk can read back, the ledger, and the lines of what it emitted.
   */
  datatype Work = Work(agents: set<string>, missing: set<string>, wants: iset<Need>, have: seq<Entry>,
                       emitted: seq<Entry>)

  datatype Stage =
    | Reading
    | Chosen(target: Target)
    | Diffed(target: Target, work: Work)
    /** What was emitted is in the ledger, unless it could not be written there. */
    | Recorded(target: Target, work: Work, logged: bool)

  datatype Pass = Pass(start: int, stage: Stage)

  /** Why a pass was done with a marker. */
  datatype Why = Walked(target: Target, work: Work, logged: bool) | Unreadable | Excluded | Unnamed

  datatype Settled = Settled(start: int, why: Why)

  datatype System = System(
    now: nat,
    hooks: map<Id, Hook>,
    markers: set<Id>,
    torn: set<Id>,
    passes: map<nat, Pass>,
    /** The markers passes removed, by which pass, and why. */
    settled: map<Id, Settled>,
    ledger: seq<Entry>,
    /** The ledger lines of what the outbox took. */
    outbox: seq<Entry>)

  /** What one hook does next, or has done to it. */
  datatype Act =
    | Mark
    /** The marker could not be written; the capture goes on without it. */
    | MarkFails
    /** Killed in the middle of writing its marker. */
    | Tear
    | Put
    | Written
    | Record
    | RecordFails
    | Clear
    /** Killed, or stopped by an error of the outbox: the marker stays. */
    | Die

  datatype Step =
    | Tick(d: nat)
    | Begin(id: Id, transcript: string, agent: string, lines: seq<Entry>)
    | Of(id: Id, act: Act)
    | StartPass(p: nat)
    /** No marker is young: the last one to name a transcript says what to walk. */
    | ReadMarkers(p: nat, id: Id)
    /** No marker is young and none names a transcript: they are cleared. */
    | NothingNamed(p: nat)
    /** The reconciler walks what the state of a dead daemon names, young markers or not. */
    | ReadState(p: nat, path: string)
    /** The directory is excluded, or the transcript is gone. */
    | GiveUp(p: nat, why: Why)
    | ReadLedger(p: nat, missing: set<string>, wants: iset<Need>)
    | PassPut(p: nat, e: Entry)
    | PassRecord(p: nat, logged: bool)
    | FinishPass(p: nat)
    /** The pass failed, or found a young marker: nothing is removed. */
    | AbandonPass(p: nat)

  /** Twice the minute a hook may take, in nanoseconds. */
  const GRACE: nat := 120_000_000_000

  function Cutoff(pass: Pass): int
  {
    pass.start - GRACE
  }

  /** The marker files ClearInflightBefore removes: whole or torn, the name tells the time. */
  function Old(s: System, ids: set<Id>, cutoff: int): set<Id>
  {
    set id | id in ids && id in s.hooks && s.hooks[id].at < cutoff
  }

  predicate May(h: Hook, act: Act)
  {
    match act
    case Mark => h.phase == Beginning
    case MarkFails => h.phase == Beginning
    case Tear => h.phase == Beginning
    case Put => h.phase == Writing && h.put < |h.lines|
    case Written => h.phase == Writing && h.Spooled()
    case Record => h.phase == Recording
    case RecordFails => h.phase == Recording
    case Clear => h.phase == Clearing
    case Die => h.Live()
  }

  predicate NoneYoung(s: System, cutoff: int)
  {
    forall id :: id in s.markers && id in s.hooks ==> s.hooks[id].at < cutoff
  }

  /** The marker names a transcript and no later one does. */
  predicate IsLast(s: System, id: Id)
  {
    && id in s.markers && id in s.hooks && s.hooks[id].transcript != ""
    && forall k :: k in s.markers && k in s.hooks && s.hooks[k].transcript != "" ==> s.hooks[k].at <= s.hooks[id].at
  }

  /** The pass met all it set out for. */
  ghost predicate Completed(w: Work)
  {
    forall need :: need in w.wants ==> Met(w.have + w.emitted, need)
  }

  /** A hook finishes or dies within the grace: time does not pass a live hook's limit. */
  ghost predicate Enabled(s: System, step: Step)
  {
    match step
    case Tick(d) => forall id :: id in s.hooks && s.hooks[id].Live() ==> s.now + d <= s.hooks[id].at + GRACE
    case Begin(id, _, _, _) => id !in s.hooks
    case Of(id, act) => id in s.hooks && May(s.hooks[id], act)
    case StartPass(p) => p !in s.passes
    case ReadMarkers(p, id) =>
      p in s.passes && s.passes[p].stage == Reading && NoneYoung(s, Cutoff(s.passes[p])) && IsLast(s, id)
    case NothingNamed(p) =>
      && p in s.passes && s.passes[p].stage == Reading && NoneYoung(s, Cutoff(s.passes[p]))
      && forall id :: id in s.markers && id in s.hooks ==> s.hooks[id].transcript == ""
    case ReadState(p, path) => p in s.passes && s.passes[p].stage == Reading && path != ""
    case GiveUp(p, why) => p in s.passes && s.passes[p].stage.Chosen? && (why == Unreadable || why == Excluded)
    case ReadLedger(p, _, _) => p in s.passes && s.passes[p].stage.Chosen?
    case PassPut(p, _) => p in s.passes && s.passes[p].stage.Diffed?
    case PassRecord(p, _) => p in s.passes && s.passes[p].stage.Diffed?
    case FinishPass(p) => p in s.passes && s.passes[p].stage.Recorded? && Completed(s.passes[p].stage.work)
    case AbandonPass(p) => p in s.passes
  }

  function Acted(h: Hook, act: Act, now: nat): Hook
  {
    match act
    case Mark => h.(phase := Writing, marked := true)
    case MarkFails => h.(phase := Writing)
    case Put => h.(put := h.put + 1)
    case Written => h.(phase := Recording)
    case Record => h.(phase := Clearing, recorded := true)
    case RecordFails => h.(phase := Clearing)
    case _ => h.(phase := Ended, ended := now)
  }

  function Move(s: System, id: Id, h: Hook): System
  {
    s.(hooks := s.hooks[id := h])
  }

  ghost function Staged(s: System, p: nat, stage: Stage): System
    requires p in s.passes
  {
    s.(passes := s.passes[p := s.passes[p].(stage := stage)])
  }

  /** A pass removes the markers older than its cutoff and is over. */
  ghost function Settle(s: System, p: nat, why: Why): System
    requires p in s.passes
  {
    var gone := Old(s, s.markers, Cutoff(s.passes[p]));
    s.(markers := s.markers - gone,
       torn := s.torn - Old(s, s.torn, Cutoff(s.passes[p])),
       passes := s.passes - {p},
       settled := s.settled + map id | id in gone :: Settled(s.passes[p].start, why))
  }

  /** The subagent files the settled markers name. */
  function AgentsNamed(s: System, cutoff: int): set<string>
  {
    set id | id in s.markers && id in s.hooks && s.hooks[id].at < cutoff && s.hooks[id].agent != "" :: s.hooks[id].agent
  }

  ghost function After(s: System, step: Step): System
    requires Enabled(s, step)
  {
    match step
    case Tick(d) => s.(now := s.now + d)
    case Begin(id, transcript, agent, lines) =>
      Move(s, id, Hook(s.now, transcript, agent, lines, 0, Beginning, false, false, 0))
    case Of(id, act) =>
      var h := s.hooks[id];
      Move(s, id, Acted(h, act, s.now)).(
        markers := if act == Mark then s.markers + {id} else if act == Clear then s.markers - {id} else s.markers,
        torn := if act == Tear then s.torn + {id} else s.torn,
        outbox := if act == Put then s.outbox + [h.lines[h.put]] else s.outbox,
        ledger := if act == Record then s.ledger + h.lines else s.ledger)
    case StartPass(p) => s.(passes := s.passes[p := Pass(s.now, Reading)])
    case ReadMarkers(p, id) => Staged(s, p, Chosen(Target(s.hooks[id].transcript, Some(id))))
    case NothingNamed(p) => Settle(s, p, Unnamed)
    case ReadState(p, path) => Staged(s, p, Chosen(Target(path, None)))
    case GiveUp(p, why) => Settle(s, p, why)
    case ReadLedger(p, missing, wants) =>
      var named := AgentsNamed(s, Cutoff(s.passes[p]));
      Staged(s, p, Diffed(s.passes[p].stage.target, Work(named - missing, missing, wants, s.ledger, [])))
    case PassPut(p, e) =>
      var st := s.passes[p].stage;
      Staged(s, p, Diffed(st.target, st.work.(emitted := st.work.emitted + [e]))).(outbox := s.outbox + [e])
    case PassRecord(p, logged) =>
      var st := s.passes[p].stage;
      Staged(s, p, Recorded(st.target, st.work, logged)).(
        ledger := if logged then s.ledger + st.work.emitted else s.ledger)
    case FinishPass(p) =>
      var st := s.passes[p].stage;
      Settle(s, p, Walked(st.target, st.work, st.logged))
    case AbandonPass(p) => s.(passes := s.passes - {p})
  }

  const START := System(0, map[], {}, {}, map[], map[], [], [])

  // ------------------------------------------------------------- the invariant

  ghost predicate Covers(most: seq<Entry>, some: seq<Entry>)
  {
    forall e :: e in some ==> e in most
  }

  lemma CoversMet(most: seq<Entry>, some: seq<Entry>, need: Need)
    requires Covers(most, some) && Met(some, need)
    ensures Met(most, need)
  {
    hide Meets;
  }

  /** Where a hook stands with its marker, the outbox and its ledger lines. */
  ghost predicate HookInv(s: System, id: Id)
    requires id in s.hooks
  {
    var h := s.hooks[id];
    && h.at <= s.now && h.put <= |h.lines| && Covers(s.outbox, h.lines[..h.put])
    && (if h.Live() then s.now <= h.at + GRACE else h.ended <= s.now && h.ended <= h.at + GRACE)
    && (h.phase == Beginning ==> !h.marked)
    && (h.phase == Recording || h.phase == Clearing || h.recorded ==> h.Spooled())
    && (h.recorded ==> Covers(s.ledger, h.lines))
    && (h.marked && id !in s.markers ==> h.Spooled() || id in s.settled)
    && (id in s.markers ==> h.marked)
  }

  /** The marker the pass took its transcript from is the last of those it may settle, and goes last. */
  predicate TargetInv(s: System, pass: Pass)
  {
    pass.stage != Reading && pass.stage.target.from.Some? ==>
      var c := pass.stage.target.from.value;
      && c in s.hooks && s.hooks[c].transcript == pass.stage.target.path != "" && s.hooks[c].at < Cutoff(pass)
      && (forall k :: k in s.markers && k in s.hooks && s.hooks[k].at < Cutoff(pass) && s.hooks[k].transcript != "" ==>
            s.hooks[k].at <= s.hooks[c].at && c in s.markers)
  }

  /** What a pass has read, and where what it emitted has got to. */
  ghost predicate WorkInv(s: System, cutoff: int, w: Work, logged: bool)
  {
    && Covers(s.ledger, w.have) && Covers(s.outbox, w.emitted)
    && (logged ==> Covers(s.ledger, w.emitted))
    && (forall id :: id in s.hooks && s.hooks[id].at < cutoff && s.hooks[id].recorded ==>
          Covers(w.have, s.hooks[id].lines))
  }

  /** Every settled marker's subagent file was read, unless it was gone. */
  predicate AgentsInv(s: System, cutoff: int, w: Work)
  {
    forall id :: id in s.markers && id in s.hooks && s.hooks[id].at < cutoff && s.hooks[id].agent != "" ==>
      s.hooks[id].agent in w.agents || s.hooks[id].agent in w.missing
  }

  ghost predicate PassInv(s: System, p: nat)
    requires p in s.passes
  {
    var pass := s.passes[p];
    && pass.start <= s.now && TargetInv(s, pass)
    && (pass.stage.Diffed? || pass.stage.Recorded? ==>
          && WorkInv(s, Cutoff(pass), pass.stage.work, pass.stage.Recorded? && pass.stage.logged)
          && AgentsInv(s, Cutoff(pass), pass.stage.work))
  }

  /** The hook was over before the pass that settled it began. */
  ghost predicate SettledInv(s: System, id: Id)
    requires id in s.settled
  {
    var how := s.settled[id];
    && id in s.hooks && !s.hooks[id].Live() && s.hooks[id].at + GRACE < how.start <= s.now
    && (how.why.Walked? ==>
          && Completed(how.why.work) && Covers(s.ledger, how.why.work.have) && Covers(s.outbox, how.why.work.emitted)
          && (how.why.logged ==> Covers(s.ledger, how.why.work.emitted))
          && (s.hooks[id].recorded ==> Covers(how.why.work.have, s.hooks[id].lines)))
  }

  ghost predicate Inv(s: System)
  {
    && (forall id :: id in s.hooks ==> HookInv(s, id))
    && (forall id :: id in s.markers ==> id in s.hooks)
    && (forall p :: p in s.passes ==> PassInv(s, p))
    && (forall id :: id in s.settled ==> SettledInv(s, id))
    && Covers(s.outbox, s.ledger)
  }

  lemma OldIsOver(s: System, p: nat, id: Id)
    requires Inv(s) && p in s.passes && id in s.hooks && s.hooks[id].at < Cutoff(s.passes[p])
    ensures !s.hooks[id].Live() && s.hooks[id].at + GRACE < s.passes[p].start <= s.now
  {
    assert HookInv(s, id) && PassInv(s, p);
  }

  /** The logs have grown. */
  ghost predicate LogsGrow(s: System, t: System)
  {
    Covers(t.outbox, s.outbox) && Covers(t.ledger, s.ledger) && Covers(t.outbox, t.ledger)
  }

  /** A hook the step does not touch. */
  lemma OtherHook(s: System, t: System, id: Id)
    requires id in s.hooks && id in t.hooks && s.hooks[id] == t.hooks[id] && HookInv(s, id) && LogsGrow(s, t)
    requires (id in t.markers <==> id in s.markers) && (id in s.settled ==> id in t.settled)
    requires s.now <= t.now && (s.hooks[id].Live() ==> t.now <= s.hooks[id].at + GRACE)
    ensures HookInv(t, id)
  {
  }

  /** The step leaves the hooks and markers a pass may settle as they were. */
  ghost predicate OldSame(s: System, t: System, cutoff: int)
  {
    && (forall id :: id in t.hooks && t.hooks[id].at < cutoff ==> id in s.hooks && s.hooks[id] == t.hooks[id])
    && (forall id :: id in s.hooks && s.hooks[id].at < cutoff ==> id in t.hooks && s.hooks[id] == t.hooks[id])
    && (forall id :: id in t.hooks && t.hooks[id].at < cutoff ==> (id in t.markers <==> id in s.markers))
  }

  lemma WorkHolds(s: System, t: System, cutoff: int, w: Work, logged: bool)
    requires WorkInv(s, cutoff, w, logged) && LogsGrow(s, t) && OldSame(s, t, cutoff)
    ensures WorkInv(t, cutoff, w, logged)
  {
  }

  /** A pass the step does not touch. */
  lemma OtherPass(s: System, t: System, p: nat)
    requires p in s.passes && p in t.passes && s.passes[p] == t.passes[p] && PassInv(s, p)
    requires s.now <= t.now && LogsGrow(s, t) && OldSame(s, t, Cutoff(s.passes[p]))
    ensures PassInv(t, p)
  {
    hide Covers, WorkInv, LogsGrow;
    var pass := s.passes[p];
    if pass.stage.Diffed? || pass.stage.Recorded? {
      WorkHolds(s, t, Cutoff(pass), pass.stage.work, pass.stage.Recorded? && pass.stage.logged);
    }
  }

  /** A settled hook the step does not touch. */
  lemma OtherSettled(s: System, t: System, id: Id)
    requires id in s.settled && id in t.settled && s.settled[id] == t.settled[id] && SettledInv(s, id)
    requires id in t.hooks && t.hooks[id] == s.hooks[id] && s.now <= t.now && LogsGrow(s, t)
    ensures SettledInv(t, id)
  {
    hide Completed;
  }

  // ------------------------------------------------------------------- each step

  /** A step of one hook leaves the rest as it was. */
  lemma MoveKeeps(s: System, id: Id, t: System)
    requires Inv(s) && id in t.hooks && LogsGrow(s, t)
    requires t.now == s.now && t.passes == s.passes && t.settled == s.settled && t.hooks == s.hooks[id := t.hooks[id]]
    requires forall k :: k != id ==> (k in t.markers <==> k in s.markers)
    requires HookInv(t, id)
    requires id !in s.hooks ==> t.hooks[id].at == s.now
    requires id in s.hooks ==> s.hooks[id].Live() && t.hooks[id].at == s.hooks[id].at
    ensures Inv(t)
  {
    hide HookInv, SettledInv, PassInv, Covers;
    forall k | k in t.hooks ensures HookInv(t, k) {
      if k != id {
        HookHolds(s, k);
        OtherHook(s, t, k);
      }
    }
    forall p | p in t.passes ensures PassInv(t, p) {
      HookIsYoung(s, id, t, p);
      OtherPass(s, t, p);
    }
    forall k | k in t.settled ensures SettledInv(t, k) {
      SettledIsOver(s, k);
      OtherSettled(s, t, k);
    }
  }

  lemma HookHolds(s: System, id: Id)
    requires Inv(s) && id in s.hooks
    ensures HookInv(s, id)
  {
  }

  lemma SettledIsOver(s: System, id: Id)
    requires Inv(s) && id in s.settled
    ensures SettledInv(s, id) && id in s.hooks && !s.hooks[id].Live()
  {
    assert SettledInv(s, id);
  }

  /** A hook that still acts, or begins, is too young for any pass under way to settle. */
  lemma HookIsYoung(s: System, id: Id, t: System, p: nat)
    requires Inv(s) && id in t.hooks && p in s.passes
    requires t.hooks == s.hooks[id := t.hooks[id]] && forall k :: k != id ==> (k in t.markers <==> k in s.markers)
    requires id !in s.hooks ==> t.hooks[id].at == s.now
    requires id in s.hooks ==> s.hooks[id].Live() && t.hooks[id].at == s.hooks[id].at
    ensures PassInv(s, p) && OldSame(s, t, Cutoff(s.passes[p]))
  {
    assert PassInv(s, p);
    hide HookInv, SettledInv, PassInv, Covers;
    if id in s.hooks && s.hooks[id].at < Cutoff(s.passes[p]) { OldIsOver(s, p, id); }
    PassStart(s, p);
  }

  lemma PassStart(s: System, p: nat)
    requires Inv(s) && p in s.passes
    ensures s.passes[p].start <= s.now
  {
    assert PassInv(s, p);
  }

  lemma AppendCovers(a: seq<Entry>, b: seq<Entry>)
    ensures Covers(a + b, a) && Covers(a + b, b)
  {
  }

  lemma CoversBoth(most: seq<Entry>, a: seq<Entry>, b: seq<Entry>)
    requires Covers(most, a) && Covers(most, b)
    ensures Covers(most, a + b)
  {
  }

  lemma CoversVia(most: seq<Entry>, some: seq<Entry>, more: seq<Entry>)
    requires Covers(some, more) && Covers(most, some)
    ensures Covers(most, more)
  {
  }

  lemma SameLogs(s: System, t: System)
    requires Inv(s) && t.outbox == s.outbox && t.ledger == s.ledger
    ensures LogsGrow(s, t)
  {
  }

  /** One more event in the outbox. */
  lemma PutGrows(s: System, t: System, e: Entry)
    requires Inv(s) && t.outbox == s.outbox + [e] && t.ledger == s.ledger
    ensures LogsGrow(s, t) && Covers(t.outbox, [e])
  {
    AppendCovers(s.outbox, [e]);
    CoversVia(t.outbox, s.outbox, s.ledger);
  }

  /** Lines of events that are in the outbox go to the ledger. */
  lemma RecordGrows(s: System, t: System, lines: seq<Entry>)
    requires Inv(s) && t.outbox == s.outbox && t.ledger == s.ledger + lines && Covers(s.outbox, lines)
    ensures LogsGrow(s, t) && Covers(t.ledger, lines)
  {
    AppendCovers(s.ledger, lines);
    CoversBoth(s.outbox, s.ledger, lines);
  }

  lemma PutKeepsHook(s: System, id: Id)
    requires Inv(s) && Enabled(s, Of(id, Put))
    ensures var t := After(s, Of(id, Put)); HookInv(t, id) && LogsGrow(s, t)
  {
    var h, t := s.hooks[id], After(s, Of(id, Put));
    HookHolds(s, id);
    PutGrows(s, t, h.lines[h.put]);
    assert h.lines[..h.put + 1] == h.lines[..h.put] + [h.lines[h.put]];
    CoversVia(t.outbox, s.outbox, h.lines[..h.put]);
    CoversBoth(t.outbox, h.lines[..h.put], [h.lines[h.put]]);
    hide Inv, Covers;
  }

  lemma RecordKeepsHook(s: System, id: Id)
    requires Inv(s) && Enabled(s, Of(id, Record))
    ensures var t := After(s, Of(id, Record)); HookInv(t, id) && LogsGrow(s, t)
  {
    var h, t := s.hooks[id], After(s, Of(id, Record));
    HookHolds(s, id);
    assert h.lines[..h.put] == h.lines;
    RecordGrows(s, t, h.lines);
    hide Inv, Covers;
  }

  /** What an act leaves the hook with. */
  lemma ActKeepsHook(s: System, id: Id, act: Act)
    requires Inv(s) && Enabled(s, Of(id, act))
    ensures var t := After(s, Of(id, act)); HookInv(t, id) && LogsGrow(s, t)
  {
    if act == Put {
      PutKeepsHook(s, id);
    } else if act == Record {
      RecordKeepsHook(s, id);
    } else {
      HookHolds(s, id);
      SameLogs(s, After(s, Of(id, act)));
      hide Inv, Covers;
    }
  }

  lemma ActKeeps(s: System, id: Id, act: Act)
    requires Inv(s) && Enabled(s, Of(id, act))
    ensures Inv(After(s, Of(id, act)))
  {
    ActKeepsHook(s, id, act);
    hide Inv, HookInv, LogsGrow;
    MoveKeeps(s, id, After(s, Of(id, act)));
  }

  lemma BeginKeeps(s: System, step: Step)
    requires Inv(s) && Enabled(s, step) && step.Begin?
    ensures Inv(After(s, step))
  {
    var t := After(s, step);
    assert step.id !in s.markers;
    SameLogs(s, t);
    assert HookInv(t, step.id);
    hide Inv, HookInv, LogsGrow;
    MoveKeeps(s, step.id, t);
  }

  lemma TickKeeps(s: System, d: nat)
    requires Inv(s) && Enabled(s, Tick(d))
    ensures Inv(After(s, Tick(d)))
  {
    var t := After(s, Tick(d));
    SameLogs(s, t);
    hide HookInv, SettledInv, PassInv, LogsGrow, Covers;
    forall id | id in t.hooks ensures HookInv(t, id) {
      HookHolds(s, id);
      OtherHook(s, t, id);
    }
    forall p | p in t.passes ensures PassInv(t, p) { OtherPass(s, t, p); }
    forall id | id in t.settled ensures SettledInv(t, id) {
      SettledIsOver(s, id);
      OtherSettled(s, t, id);
    }
  }

  /** A step of one pass that removes nothing. */
  lemma PassMoves(s: System, p: nat, t: System)
    requires Inv(s) && LogsGrow(s, t)
    requires t == s.(passes := t.passes, ledger := t.ledger, outbox := t.outbox)
    requires forall q :: q != p ==> (q in t.passes <==> q in s.passes) && (q in t.passes ==> t.passes[q] == s.passes[q])
    requires p in t.passes ==> PassInv(t, p)
    ensures Inv(t)
  {
    hide HookInv, SettledInv, PassInv, Covers;
    forall id | id in t.hooks ensures HookInv(t, id) {
      HookHolds(s, id);
      LiveInTime(s, id);
      OtherHook(s, t, id);
    }
    forall q | q in t.passes ensures PassInv(t, q) {
      if q != p { OtherPass(s, t, q); }
    }
    forall id | id in t.settled ensures SettledInv(t, id) {
      SettledIsOver(s, id);
      OtherSettled(s, t, id);
    }
  }

  lemma LiveInTime(s: System, id: Id)
    requires Inv(s) && id in s.hooks
    ensures s.hooks[id].Live() ==> s.now <= s.hooks[id].at + GRACE
  {
    assert HookInv(s, id);
  }

  lemma ChoosingKeeps(s: System, step: Step)
    requires Inv(s) && Enabled(s, step)
             && (step.StartPass? || step.ReadMarkers? || step.ReadState? || step.AbandonPass?)
    ensures Inv(After(s, step))
  {
    var t := After(s, step);
    SameLogs(s, t);
    if step.ReadMarkers? || step.ReadState? { PassStart(s, step.p); }
    hide HookInv, SettledInv, Covers, WorkInv, LogsGrow;
    PassMoves(s, step.p, t);
  }

  lemma ReadLedgerKeeps(s: System, step: Step)
    requires Inv(s) && Enabled(s, step) && step.ReadLedger?
    ensures Inv(After(s, step))
  {
    var t := After(s, step);
    var pass, w := s.passes[step.p], t.passes[step.p].stage.work;
    SameLogs(s, t);
    assert PassInv(s, step.p);
    forall id | id in s.hooks && s.hooks[id].at < Cutoff(pass) && s.hooks[id].recorded
      ensures Covers(w.have, s.hooks[id].lines) {
      assert HookInv(s, id);
    }
    assert WorkInv(t, Cutoff(pass), w, false);
    hide HookInv, SettledInv, Covers, WorkInv, LogsGrow;
    assert AgentsInv(t, Cutoff(pass), w);
    PassMoves(s, step.p, t);
  }

  lemma PassPutKeeps(s: System, step: Step)
    requires Inv(s) && Enabled(s, step) && step.PassPut?
    ensures Inv(After(s, step))
  {
    var t := After(s, step);
    var pass := s.passes[step.p];
    PutGrows(s, t, step.e);
    assert PassInv(s, step.p);
    WorkHolds(s, t, Cutoff(pass), pass.stage.work, false);
    CoversBoth(t.outbox, pass.stage.work.emitted, [step.e]);
    assert WorkInv(t, Cutoff(pass), t.passes[step.p].stage.work, false);
    hide HookInv, SettledInv, Covers, WorkInv, LogsGrow;
    PassMoves(s, step.p, t);
  }

  lemma PassRecordKeeps(s: System, step: Step)
    requires Inv(s) && Enabled(s, step) && step.PassRecord?
    ensures Inv(After(s, step))
  {
    var t := After(s, step);
    var pass := s.passes[step.p];
    assert PassInv(s, step.p);
    if step.logged { RecordGrows(s, t, pass.stage.work.emitted); } else { SameLogs(s, t); }
    WorkHolds(s, t, Cutoff(pass), pass.stage.work, false);
    assert WorkInv(t, Cutoff(pass), pass.stage.work, step.logged);
    hide HookInv, SettledInv, Covers, WorkInv, LogsGrow;
    PassMoves(s, step.p, t);
  }

  // ------------------------------------------------------------------ settling

  /** Another pass keeps its hold on its marker: a marker goes only with all that are older. */
  lemma SettleKeepsPass(s: System, p: nat, why: Why, q: nat)
    requires Inv(s) && p in s.passes && q in s.passes && q != p
    ensures PassInv(Settle(s, p, why), q)
  {
    var t := Settle(s, p, why);
    assert PassInv(s, q);
    hide HookInv, SettledInv, Covers, Completed;
    var pass := s.passes[q];
    assert TargetInv(t, pass);
    if pass.stage.Diffed? || pass.stage.Recorded? {
      assert WorkInv(t, Cutoff(pass), pass.stage.work, pass.stage.Recorded? && pass.stage.logged);
      assert AgentsInv(t, Cutoff(pass), pass.stage.work);
    }
  }

  lemma SettleKeepsHook(s: System, p: nat, why: Why, id: Id)
    requires Inv(s) && p in s.passes && id in s.hooks
    ensures HookInv(Settle(s, p, why), id)
  {
    assert HookInv(s, id);
    hide SettledInv, PassInv, Covers;
  }

  /** What a pass says of why it is done is so. */
  ghost predicate WhyHolds(s: System, cutoff: int, why: Why)
  {
    why.Walked? ==> Completed(why.work) && WorkInv(s, cutoff, why.work, why.logged)
  }

  lemma SettleKeepsSettled(s: System, p: nat, why: Why, id: Id)
    requires Inv(s) && p in s.passes && WhyHolds(s, Cutoff(s.passes[p]), why)
    requires id in Settle(s, p, why).settled
    ensures SettledInv(Settle(s, p, why), id)
  {
    if id in Old(s, s.markers, Cutoff(s.passes[p])) {
      OldIsOver(s, p, id);
      hide HookInv, PassInv, Covers, Completed;
    } else {
      assert SettledInv(s, id);
      hide HookInv, PassInv, Covers, Completed;
    }
  }

  lemma SettleKeeps(s: System, p: nat, why: Why)
    requires Inv(s) && p in s.passes && WhyHolds(s, Cutoff(s.passes[p]), why)
    ensures Inv(Settle(s, p, why))
  {
    hide HookInv, SettledInv, PassInv, Covers, WhyHolds;
    var t := Settle(s, p, why);
    forall id | id in t.hooks ensures HookInv(t, id) { SettleKeepsHook(s, p, why, id); }
    forall q | q in t.passes ensures PassInv(t, q) { SettleKeepsPass(s, p, why, q); }
    forall id | id in t.settled ensures SettledInv(t, id) { SettleKeepsSettled(s, p, why, id); }
  }

  lemma FinishKeeps(s: System, step: Step)
    requires Inv(s) && Enabled(s, step) && (step.FinishPass? || step.GiveUp? || step.NothingNamed?)
    ensures Inv(After(s, step))
  {
    if step.FinishPass? { assert PassInv(s, step.p); }
    hide HookInv, SettledInv, Covers, WorkInv, Completed;
    var why := if step.FinishPass? then
                 Walked(s.passes[step.p].stage.target, s.passes[step.p].stage.work, s.passes[step.p].stage.logged)
               else if step.GiveUp? then step.why else Unnamed;
    SettleKeeps(s, step.p, why);
  }

  lemma StepKeeps(s: System, step: Step)
    requires Inv(s) && Enabled(s, step)
    ensures Inv(After(s, step))
  {
    hide Inv, Enabled, After;
    match step {
      case Tick(d) => TickKeeps(s, d);
      case Begin(_, _, _, _) => BeginKeeps(s, step);
      case Of(id, act) => ActKeeps(s, id, act);
      case StartPass(_) => ChoosingKeeps(s, step);
      case ReadMarkers(_, _) => ChoosingKeeps(s, step);
      case ReadState(_, _) => ChoosingKeeps(s, step);
      case AbandonPass(_) => ChoosingKeeps(s, step);
      case ReadLedger(_, _, _) => ReadLedgerKeeps(s, step);
      case PassPut(_, _) => PassPutKeeps(s, step);
      case PassRecord(_, _) => PassRecordKeeps(s, step);
      case FinishPass(_) => FinishKeeps(s, step);
      case GiveUp(_, _) => FinishKeeps(s, step);
      case NothingNamed(_) => FinishKeeps(s, step);
    }
  }

  // ------------------------------------------------------------------- all runs

  ghost predicate Run(s: System, steps: seq<Step>)
    decreases |steps|
  {
    steps == [] || (Enabled(s, steps[0]) && Run(After(s, steps[0]), steps[1..]))
  }

  ghost function Final(s: System, steps: seq<Step>): System
    requires Run(s, steps)
    decreases |steps|
  {
    if steps == [] then s else Final(After(s, steps[0]), steps[1..])
  }

  lemma {:induction false} RunKeeps(s: System, steps: seq<Step>)
    requires Inv(s) && Run(s, steps)
    ensures Inv(Final(s, steps))
    decreases |steps|
  {
    hide Inv, Enabled, After;
    if steps != [] {
      StepKeeps(s, steps[0]);
      RunKeeps(After(s, steps[0]), steps[1..]);
    }
  }

  lemma Reached(steps: seq<Step>)
    requires Run(START, steps)
    ensures Inv(Final(START, steps))
  {
    RunKeeps(START, steps);
  }

  /**
   * In every interleaving, a marked hook whose events are not all in the outbox still has its
   * marker, unless a pass that began after the hook was over settled it: one that walked a
   * transcript and met all it set out for, or one with none to walk.
   */
  lemma LostEventIsLookedFor(steps: seq<Step>, id: Id)
    requires Run(START, steps)
    ensures
      var s := Final(START, steps);
      id in s.hooks && s.hooks[id].marked && !s.hooks[id].Spooled() ==>
        || id in s.markers
        || (&& id in s.settled && !s.hooks[id].Live()
            && s.hooks[id].ended <= s.hooks[id].at + GRACE < s.settled[id].start
            && (s.settled[id].why.Walked? ==> Completed(s.settled[id].why.work)))
  {
    hide Run, Final, Covers, Completed, PassInv;
    Reached(steps);
    var s := Final(START, steps);
    if id in s.hooks {
      HookHolds(s, id);
      if id in s.settled { SettledIsOver(s, id); }
    }
  }

  /** The pass walked a transcript that wants this, and could read it back. */
  predicate WalkedFor(how: Settled, need: Need)
  {
    how.why.Walked? && need in how.why.work.wants
  }

  /**
   * What a marked hook would have captured is in the outbox once its marker is gone, whatever
   * became of the hook, unless the pass that settled it walked no transcript that shows it; and
   * where that pass could write the ledger it is on the ledger too.
   */
  lemma LostEventIsRecovered(steps: seq<Step>, id: Id, need: Need)
    requires Run(START, steps)
    ensures
      var s := Final(START, steps);
      && (id in s.hooks && s.hooks[id].marked && id !in s.markers && Met(s.hooks[id].lines, need) ==>
            Met(s.outbox, need) || (id in s.settled && !WalkedFor(s.settled[id], need)))
      && (id in s.settled && WalkedFor(s.settled[id], need) ==>
            Met(s.outbox, need) && (s.settled[id].why.logged ==> Met(s.ledger, need)))
  {
    Reached(steps);
    hide Run, Final, PassInv, Meets;
    var s := Final(START, steps);
    if id in s.settled && WalkedFor(s.settled[id], need) {
      var w := s.settled[id].why.work;
      SettledIsOver(s, id);
      CoversVia(s.outbox, s.ledger, w.have);
      CoversBoth(s.outbox, w.have, w.emitted);
      CoversMet(s.outbox, w.have + w.emitted, need);
      if s.settled[id].why.logged {
        CoversBoth(s.ledger, w.have, w.emitted);
        CoversMet(s.ledger, w.have + w.emitted, need);
      }
    }
    if id in s.hooks && s.hooks[id].marked && id !in s.markers && id !in s.settled && Met(s.hooks[id].lines, need) {
      HookHolds(s, id);
      assert s.hooks[id].lines[..s.hooks[id].put] == s.hooks[id].lines;
      CoversMet(s.outbox, s.hooks[id].lines, need);
    }
  }

  // ------------------------------------------------------ whose transcript is walked

  /** The markers a pass is about to clear. */
  function Going(s: System, p: nat): set<Id>
    requires p in s.passes
  {
    Old(s, s.markers, Cutoff(s.passes[p]))
  }

  /** They all name the same transcript. */
  predicate Agreed(s: System, ids: set<Id>)
  {
    forall i, k :: i in ids && k in ids && i in s.hooks && k in s.hooks ==>
      s.hooks[i].transcript == s.hooks[k].transcript != ""
  }

  /** Of each of them the pass that settled it walked the transcript it names. */
  predicate OwnWalked(s: System, t: System, ids: set<Id>)
  {
    forall id :: id in ids && id in s.hooks && id in t.settled && t.settled[id].why.Walked? ==>
      t.settled[id].why.target.path == s.hooks[id].transcript
  }

  /** Some marker the pass clears that names a transcript is there only with the one it was taken from. */
  lemma AgreedIsTaken(s: System, p: nat)
    requires Inv(s) && p in s.passes && s.passes[p].stage != Reading && s.passes[p].stage.target.from.Some?
    ensures
      Agreed(s, Going(s, p))
      <==> forall id :: id in Going(s, p) ==> s.hooks[id].transcript == s.passes[p].stage.target.path
  {
    assert PassInv(s, p);
    hide Inv, HookInv, SettledInv, WorkInv, AgentsInv;
    var c := s.passes[p].stage.target.from.value;
    if Agreed(s, Going(s, p)) {
      forall id | id in Going(s, p) ensures s.hooks[id].transcript == s.passes[p].stage.target.path {
        assert c in Going(s, p);
      }
    }
  }

  /** What the finished pass leaves of each marker it cleared. */
  lemma FinishedFor(s: System, p: nat, id: Id)
    requires Enabled(s, FinishPass(p)) && id in Going(s, p)
    ensures
      var t, st := After(s, FinishPass(p)), s.passes[p].stage;
      && id in s.hooks && id in t.settled && id !in t.markers
      && t.settled[id].why == Walked(st.target, st.work, st.logged)
  {
    hide Completed;
  }

  /**
   * A pass that took its transcript from the markers walks the own transcript of every marker it
   * clears exactly when they all name one and the same. Each one's subagent file it read, unless
   * that was gone.
   */
  lemma OwnTranscriptExact(steps: seq<Step>, p: nat)
    requires Run(START, steps) && Enabled(Final(START, steps), FinishPass(p))
    requires Final(START, steps).passes[p].stage.target.from.Some?
    ensures
      var s := Final(START, steps);
      var t := After(s, FinishPass(p));
      && (forall id :: id in Going(s, p) ==> id in t.settled && t.settled[id].why.Walked? && id !in t.markers)
      && (OwnWalked(s, t, Going(s, p)) <==> Agreed(s, Going(s, p)))
      && (forall id :: id in Going(s, p) && s.hooks[id].agent != "" ==>
            s.hooks[id].agent in t.settled[id].why.work.agents || s.hooks[id].agent in t.settled[id].why.work.missing)
  {
    Reached(steps);
    var s := Final(START, steps);
    assert PassInv(s, p);
    AgreedIsTaken(s, p);
    hide Run, Final, Inv, WorkInv, TargetInv, After, Agreed;
    forall id | id in Going(s, p)
      ensures
        var t, st := After(s, FinishPass(p)), s.passes[p].stage;
        && id in s.hooks && id in t.settled && id !in t.markers
        && t.settled[id].why == Walked(st.target, st.work, st.logged) {
      FinishedFor(s, p, id);
    }
  }

  /**
   * Whenever a step makes a marker disappear, either it is the hook's own and everything it had
   * is in the outbox, or it is older than the grace and its hook is over.
   */
  lemma OnlyOldMarkersGo(steps: seq<Step>, step: Step, id: Id)
    requires Run(START, steps) && Enabled(Final(START, steps), step)
    ensures
      var s := Final(START, steps);
      id in s.markers && id !in After(s, step).markers ==>
        id in s.hooks && if step == Of(id, Clear) then s.hooks[id].Spooled()
                         else s.hooks[id].at + GRACE < s.now && !s.hooks[id].Live()
  {
    Reached(steps);
    hide Run, Final, SettledInv, PassInv, Covers, Completed;
    var s := Final(START, steps);
    if id in s.markers && id !in After(s, step).markers {
      HookHolds(s, id);
      match step {
        case FinishPass(p) => OldIsOver(s, p, id);
        case GiveUp(p, _) => OldIsOver(s, p, id);
        case NothingNamed(p) => OldIsOver(s, p, id);
        case _ =>
      }
    }
  }

  // ---------------------------------------------------- where it is not looked for

  lemma Then(s: System, step: Step, t: System, steps: seq<Step>) returns (longer: seq<Step>)
    requires Enabled(s, step) && After(s, step) == t && Run(t, steps)
    ensures Run(s, longer) && Final(s, longer) == Final(t, steps)
  {
    longer := [step] + steps;
    assert longer[1..] == steps;
  }

  /** A hook that writes its marker and dies. */
  function Dead(s: System, id: Id, transcript: string, lines: seq<Entry>): System
  {
    s.(hooks := s.hooks[id := Hook(s.now, transcript, "", lines, 0, Ended, true, false, s.now)],
       markers := s.markers + {id})
  }

  lemma HookDies(s: System, id: Id, transcript: string, lines: seq<Entry>, steps: seq<Step>) returns (longer: seq<Step>)
    requires id !in s.hooks && Run(Dead(s, id, transcript, lines), steps)
    ensures Run(s, longer) && Final(s, longer) == Final(Dead(s, id, transcript, lines), steps)
  {
    var h := Hook(s.now, transcript, "", lines, 0, Beginning, false, false, 0);
    var s1 := s.(hooks := s.hooks[id := h]);
    var s2 := s.(hooks := s.hooks[id := h.(phase := Writing, marked := true)], markers := s.markers + {id});
    var s3 := Dead(s, id, transcript, lines);
    assert s1.hooks[id := h.(phase := Writing, marked := true)] == s2.hooks;
    assert s2.hooks[id := s3.hooks[id]] == s3.hooks;
    hide Run, Final, Dead;
    longer := Then(s2, Of(id, Die), s3, steps);
    longer := Then(s1, Of(id, Mark), s2, longer);
    longer := Then(s, Begin(id, transcript, "", lines), s1, longer);
  }

  /** A prompt lost with its hook, the first of two whose markers name different transcripts. */
  const PROMPT := Entry(UserPrompt, "p", "", "u")
  const LATER: nat := GRACE + 1
  const DEAD := Dead(Dead(START, 0, "a", [PROMPT]), 1, "b", [])
  const TAKEN := Target("b", Some(1))
  const NOTHING := Work({}, {}, iset{}, [], [])

  function InPass(stage: Stage): System
  {
    DEAD.(now := LATER, passes := map[0 := Pass(LATER, stage)])
  }

  lemma UpToReading(steps: seq<Step>) returns (longer: seq<Step>)
    requires Run(InPass(Reading), steps)
    ensures Run(START, longer) && Final(START, longer) == Final(InPass(Reading), steps)
  {
    hide Run, Final;
    var late := DEAD.(now := LATER);
    assert late.passes == map[];
    longer := Then(late, StartPass(0), InPass(Reading), steps);
    longer := Then(DEAD, Tick(LATER), late, longer);
    longer := HookDies(Dead(START, 0, "a", [PROMPT]), 1, "b", [], longer);
    longer := HookDies(START, 0, "a", [PROMPT], longer);
  }

  lemma UpToDiff(steps: seq<Step>) returns (longer: seq<Step>)
    requires Run(InPass(Diffed(TAKEN, NOTHING)), steps)
    ensures Run(START, longer) && Final(START, longer) == Final(InPass(Diffed(TAKEN, NOTHING)), steps)
  {
    hide Run, Final;
    var s := InPass(Chosen(TAKEN));
    assert AgentsNamed(s, 1) - {} == {} && s.ledger == [];
    assert s.passes[0 := Pass(LATER, Diffed(TAKEN, NOTHING))] == InPass(Diffed(TAKEN, NOTHING)).passes;
    assert After(s, ReadLedger(0, {}, iset{})) == InPass(Diffed(TAKEN, NOTHING));
    longer := Then(s, ReadLedger(0, {}, iset{}), InPass(Diffed(TAKEN, NOTHING)), steps);
    longer := Then(InPass(Reading), ReadMarkers(0, 1), s, longer);
    longer := UpToReading(longer);
  }

  const HOW := Settled(LATER, Walked(TAKEN, NOTHING, true))
  const DROPPED := DEAD.(now := LATER, markers := {}, settled := map[0 := HOW, 1 := HOW])

  lemma BothCleared()
    ensures
      var s := InPass(Recorded(TAKEN, NOTHING, true));
      Enabled(s, FinishPass(0)) && After(s, FinishPass(0)) == DROPPED
  {
    var s := InPass(Recorded(TAKEN, NOTHING, true));
    assert Old(s, s.markers, 1) == {0, 1} && Old(s, s.torn, 1) == {};
    assert Settle(s, 0, Walked(TAKEN, NOTHING, true)) == DROPPED;
  }

  lemma UpToRecorded(steps: seq<Step>) returns (longer: seq<Step>)
    requires Run(InPass(Recorded(TAKEN, NOTHING, true)), steps)
    ensures Run(START, longer) && Final(START, longer) == Final(InPass(Recorded(TAKEN, NOTHING, true)), steps)
  {
    hide Run, Final;
    longer := Then(InPass(Diffed(TAKEN, NOTHING)), PassRecord(0, true), InPass(Recorded(TAKEN, NOTHING, true)), steps);
    longer := UpToDiff(longer);
  }

  /**
   * Two markers that name different transcripts: the pass walks the later one's, clears both, and
   * the prompt in the other transcript is nowhere.
   */
  lemma OtherTranscriptIsDropped() returns (steps: seq<Step>)
    ensures Run(START, steps)
    ensures
      var s := Final(START, steps);
      && 0 in s.hooks && s.hooks[0].marked && s.hooks[0].transcript == "a" && s.markers == {}
      && Met(s.hooks[0].lines, PromptNeed("p")) && !Met(s.outbox, PromptNeed("p"))
      && 0 in s.settled && s.settled[0].why.Walked? && s.settled[0].why.target.path == "b"
  {
    var s := InPass(Recorded(TAKEN, NOTHING, true));
    steps := [];
    assert Run(DROPPED, steps) && Final(DROPPED, steps) == DROPPED;
    assert PROMPT in DROPPED.hooks[0].lines;
    hide Run, Final, Meets;
    BothCleared();
    hide After, Enabled, Dead, InPass;
    steps := Then(s, FinishPass(0), DROPPED, steps);
    steps := UpToRecorded(steps);
  }
}
