/**
 * Codex rollouts: cost arrives after the event it pays for, so the walker holds one
 * event back. The hold-back changes no event, number or id, and bills no report twice.
 */
module Codex {
  import opened Events
  import opened Names
  import opened Encoding
  import opened Walker
  import Utf8

  // ------------------------------------------------------------- the rollout

  datatype TokenUsage = TokenUsage(input: int, cached: int, output: int)

  /** usage: codex counts cached input inside input, the canonical form beside it. All zero is no report. */
  function Canonical(u: TokenUsage): Option<Usage>
  {
    var uncached := if u.input - u.cached > 0 then u.input - u.cached else 0;
    if uncached == 0 && u.output == 0 && u.cached == 0 then None
    else Some(NO_USAGE.(input := uncached, output := u.output, cacheRead := u.cached))
  }

  /**
   * Every token of a report is billed at exactly one rate: cached input leaves the input it was
   * counted in, and only a report that counts more cached input than input bills more than it says.
   * Only a report of nothing is dropped.
   */
  lemma CanonicalSplitsInput(u: TokenUsage)
    ensures Canonical(u) == None <==> u.input <= 0 && u.cached == 0 && u.output == 0
    ensures Canonical(u).Some? ==>
              var c := Canonical(u).value;
              && c.cacheRead == u.cached && c.output == u.output && c.input >= 0 && c.cacheCreation == 0
              && c.input + c.cacheRead >= u.input && c.input + c.cacheRead >= u.cached
              && (c.input + c.cacheRead == u.input || (c.input == 0 && c.cacheRead == u.cached > u.input))
  {
  }

  datatype Response = Response(
    kind: string,
    id: string,
    role: string,
    callId: string,
    text: string,
    arguments: string,
    input: string,
    output: string)

  datatype Body =
    | SessionMeta
    | TurnContext(cwd: string)
    | ResponseItem(item: Response)
    | Compacted(message: string)
    | TokenCount(last: Option<TokenUsage>)
    | OtherBody

  datatype RolloutLine =
    | BadLine
    | Envelope(at: Option<Time>, body: Body, raw: string)

  datatype Metadata = Metadata(
    id: string,
    parent: string,
    timestamp: Option<Time>,
    cwd: string,
    branch: string,
    version: string)

  function FirstValue(a: string, b: string): string
  {
    if a != "" then a else b
  }

  /** codexResponseEvent. */
  function ResponseDraft(base: Event, r: Response): Option<Draft>
  {
    if r.kind == "message" then
      if r.role == "user" then Some(Draft(base.(kind := UserPrompt, text := r.text), "message:" + r.id + ":" + r.role))
      else if r.role == "assistant" then
        Some(Draft(base.(kind := AssistantTurn, text := r.text), "message:" + r.id + ":" + r.role))
      else None
    else if r.kind == "agent_message" then
      Some(Draft(base.(kind := AssistantTurn, text := r.text), "agent_message:" + r.id))
    else if r.kind in {"function_call", "custom_tool_call", "tool_search_call"} then
      Some(Draft(base.(kind := ToolCall, text := if r.arguments != "" then r.arguments else r.input),
                 r.kind + ":" + FirstValue(r.callId, r.id)))
    else if r.kind in {"function_call_output", "custom_tool_call_output", "tool_search_output"} then
      Some(Draft(base.(kind := ToolResult, text := Utf8.Capped(r.output, 512 * 1024).0),
                 r.kind + ":" + FirstValue(r.callId, r.id)))
    else None
  }

  // -------------------------------------------------------------- what happens

  /** What a rollout comes to, in order: events without their cost, and reports of cost. */
  datatype Happening = Emits(draft: Draft) | Costs(usage: Usage)

  datatype RolloutState = RolloutState(started: bool, cwd: string)

  function BaseEvent(m: Metadata, session: string, agentId: string, cwd: string, at: Time, raw: string): Event
  {
    Event("", 0, "codex", "transcript", Untyped, session, "", agentId, "", "", "", "", 0, 0, at, cwd,
          m.branch, m.version, None, "", raw, map[])
  }

  /** A session_meta line without a time of its own takes the metadata's. */
  function LineTime(m: Metadata, l: RolloutLine): Option<Time>
    requires l.Envelope?
  {
    if l.at.None? && l.body.SessionMeta? then m.timestamp else l.at
  }

  function StartHappens(m: Metadata, session: string, agentId: string, st: RolloutState, at: Time, raw: string)
    : seq<Happening>
  {
    if st.started then []
    else
      var start := BaseEvent(m, session, agentId, st.cwd, at, raw);
      [Emits(Draft(start.(kind := if agentId != "" then SubagentStart else SessionStarted), "start"))]
  }

  function BodyHappens(base: Event, body: Body): seq<Happening>
  {
    match body
    case ResponseItem(r) => (match ResponseDraft(base, r) case None => [] case Some(d) => [Emits(d)])
    case Compacted(message) => [Emits(Draft(base.(kind := Compaction, text := message), "compaction"))]
    case TokenCount(Some(u)) => (match Canonical(u) case None => [] case Some(c) => [Costs(c)])
    case _ => []
  }

  function CwdAfter(cwd: string, body: Body): string
  {
    if body.TurnContext? && body.cwd != "" then body.cwd else cwd
  }

  function LineHappens(m: Metadata, session: string, agentId: string, st: RolloutState, l: RolloutLine)
    : (seq<Happening>, RolloutState)
  {
    if l.BadLine? || LineTime(m, l).None? then ([], st)
    else
      var at := LineTime(m, l).value;
      (StartHappens(m, session, agentId, st, at, l.raw)
       + BodyHappens(BaseEvent(m, session, agentId, st.cwd, at, l.raw), l.body),
       RolloutState(true, CwdAfter(st.cwd, l.body)))
  }

  function Happenings(m: Metadata, session: string, agentId: string, lines: seq<RolloutLine>)
    : (seq<Happening>, RolloutState)
  {
    if lines == [] then ([], RolloutState(false, m.cwd))
    else
      var k := |lines| - 1;
      var (before, st) := Happenings(m, session, agentId, lines[..k]);
      var (last, after) := LineHappens(m, session, agentId, st, lines[k]);
      (before + last, after)
  }

  // --------------------------------------------------- emitting at once, or not

  /** What a walker that never waits would emit. */
  function AtOnce(hs: seq<Happening>): seq<Draft>
  {
    if hs == [] then []
    else
      var k := |hs| - 1;
      AtOnce(hs[..k]) + if hs[k].Emits? then [hs[k].draft] else []
  }

  function Paid(d: Draft, u: Usage): Draft
  {
    if d.event.usage == None then d.(event := d.event.(usage := Some(u))) else d
  }

  /** A report goes to the event before it, unless that one has its cost. */
  function BillNext(before: seq<Draft>, h: Happening): seq<Draft>
  {
    if h.Emits? then before + [h.draft]
    else if before == [] then []
    else before[..|before| - 1] + [Paid(before[|before| - 1], h.usage)]
  }

  /** What the walker that waits emits. */
  function Billed(hs: seq<Happening>): (ds: seq<Draft>)
    ensures |ds| == |AtOnce(hs)|
  {
    if hs == [] then [] else BillNext(Billed(hs[..|hs| - 1]), hs[|hs| - 1])
  }

  ghost predicate Unpaid(hs: seq<Happening>)
  {
    forall i :: 0 <= i < |hs| && hs[i].Emits? ==> hs[i].draft.event.usage == None
  }

  /** The cost of the event at p: the report right after it, before any other event. */
  ghost function CostAt(hs: seq<Happening>, p: nat): Option<Usage>
  {
    if p + 1 < |hs| && hs[p + 1].Costs? then Some(hs[p + 1].usage) else None
  }

  /** The position the event at p has among the events. */
  ghost function IndexOf(hs: seq<Happening>, p: nat): nat
    requires p <= |hs|
  {
    |AtOnce(hs[..p])|
  }

  lemma AtOnceStep(hs: seq<Happening>, p: nat)
    requires p < |hs|
    ensures AtOnce(hs[..p + 1]) == AtOnce(hs[..p]) + if hs[p].Emits? then [hs[p].draft] else []
  {
    assert hs[..p + 1][..p] == hs[..p];
  }

  lemma {:induction false} AtOnceGrows(hs: seq<Happening>, p: nat, q: nat)
    requires p <= q <= |hs|
    ensures AtOnce(hs[..p]) <= AtOnce(hs[..q])
    decreases q
  {
    if p < q {
      AtOnceStep(hs, q - 1);
      AtOnceGrows(hs, p, q - 1);
    }
  }

  lemma IndexWithin(hs: seq<Happening>, p: nat)
    requires p < |hs| && hs[p].Emits?
    ensures IndexOf(hs, p) < |AtOnce(hs)| && AtOnce(hs)[IndexOf(hs, p)] == hs[p].draft
  {
    AtOnceStep(hs, p);
    AtOnceGrows(hs, p + 1, |hs|);
    assert hs[..|hs|] == hs;
  }

  lemma {:induction false} NoMoreEvents(hs: seq<Happening>, p: nat, q: nat)
    requires p <= q <= |hs| && forall i :: p <= i < q ==> hs[i].Costs?
    ensures AtOnce(hs[..q]) == AtOnce(hs[..p])
    decreases q
  {
    if p < q {
      AtOnceStep(hs, q - 1);
      NoMoreEvents(hs, p, q - 1);
    }
  }

  /** An event is the last one exactly when only reports follow it. */
  lemma LastIsUnfollowed(hs: seq<Happening>, p: nat)
    requires p < |hs| && hs[p].Emits?
    ensures IndexOf(hs, p) == |AtOnce(hs)| - 1 <==> forall q :: p < q < |hs| ==> hs[q].Costs?
  {
    hide AtOnce;
    AtOnceStep(hs, p);
    assert hs[..|hs|] == hs;
    if forall q :: p < q < |hs| ==> hs[q].Costs? {
      NoMoreEvents(hs, p + 1, |hs|);
    } else {
      var q :| p < q < |hs| && hs[q].Emits?;
      AtOnceGrows(hs, p + 1, q);
      AtOnceStep(hs, q);
      AtOnceGrows(hs, q + 1, |hs|);
    }
  }

  ghost predicate Carries(hs: seq<Happening>, p: nat, ds: seq<Draft>)
    requires p < |hs| && hs[p].Emits?
  {
    && IndexOf(hs, p) < |ds|
    && ds[IndexOf(hs, p)] == hs[p].draft.(event := hs[p].draft.event.(usage := CostAt(hs, p)))
  }

  /** One more report goes to the last event, and only if that has none. */
  lemma ReportAfter(front: seq<Happening>, u: Usage, ds: seq<Draft>, p: nat)
    requires p < |front| && front[p].Emits? && Carries(front, p, ds) && |ds| == |AtOnce(front)|
    ensures Carries(front + [Costs(u)], p, BillNext(ds, Costs(u)))
  {
    hide AtOnce;
    var hs := front + [Costs(u)];
    assert hs[..p] == front[..p];
    LastIsUnfollowed(front, p);
  }

  lemma EventAfter(front: seq<Happening>, d: Draft, ds: seq<Draft>, p: nat)
    requires p < |front| && front[p].Emits? && Carries(front, p, ds)
    ensures Carries(front + [Emits(d)], p, BillNext(ds, Emits(d)))
  {
    hide AtOnce;
    assert (front + [Emits(d)])[..p] == front[..p];
  }

  /**
   * Every event carries the first report between it and the next event and no other, and
   * is otherwise the event that would have been emitted at once, in the same place.
   */
  lemma {:induction false} BilledCarriesFirstReport(hs: seq<Happening>, p: nat)
    requires Unpaid(hs) && p < |hs| && hs[p].Emits?
    ensures Carries(hs, p, Billed(hs))
    decreases |hs|
  {
    var k := |hs| - 1;
    var front := hs[..k];
    assert hs == front + [hs[k]];
    if p < k {
      hide Carries, BillNext;
      BilledCarriesFirstReport(front, p);
      if hs[k].Emits? {
        EventAfter(front, hs[k].draft, Billed(front), p);
      } else {
        ReportAfter(front, hs[k].usage, Billed(front), p);
      }
    } else {
      assert front == hs[..p];
    }
  }

  // ---------------------------------------------------------------- numbering

  /** push: the ordinal keeps the ids of one rollout's events apart. */
  function Placed(d: Draft, agentId: string, n: nat, ordinal: nat): Event
  {
    d.event.(seqNo := n, captureVersion := CAPTURE_SCHEMA,
             id := IdText(d.event.sessionId, n, TypeText(d.event.kind),
                          "codex|" + agentId + "|" + Decimal(ordinal) + "|" + d.disc))
  }

  function PlaceFrom(ds: seq<Draft>, agentId: string, n: nat): (es: seq<Event>)
    ensures |es| == |ds|
  {
    if ds == [] then []
    else
      var k := |ds| - 1;
      PlaceFrom(ds[..k], agentId, n) + [Placed(ds[k], agentId, n + k, k)]
  }

  lemma {:induction false} PlaceFromAt(ds: seq<Draft>, agentId: string, n: nat, i: nat)
    requires i < |ds|
    ensures PlaceFrom(ds, agentId, n)[i] == Placed(ds[i], agentId, n + i, i)
  {
    hide Placed;
    if i < |ds| - 1 { PlaceFromAt(ds[..|ds| - 1], agentId, n, i); }
  }

  lemma PlaceFromStep(ds: seq<Draft>, d: Draft, agentId: string, n: nat)
    ensures PlaceFrom(ds + [d], agentId, n) == PlaceFrom(ds, agentId, n) + [Placed(d, agentId, n + |ds|, |ds|)]
  {
    hide Placed;
    assert (ds + [d])[..|ds|] == ds;
  }

  lemma PlaceFromStart(agentId: string, n: nat)
    ensures PlaceFrom([], agentId, n) == []
  {
  }

  lemma CostChangesNoId(d: Draft, u: Option<Usage>, agentId: string, n: nat, ordinal: nat)
    requires d.event.usage == None
    ensures var late := Placed(d.(event := d.event.(usage := u)), agentId, n, ordinal);
            late.usage == u && late.(usage := None) == Placed(d, agentId, n, ordinal)
  {
  }

  /**
   * The walker that waits refines the one that does not: the same events in the same order under
   * the same numbers, ordinals and ids, each carrying the first report between it and the next.
   */
  lemma HoldBackRefines(hs: seq<Happening>, agentId: string, n: nat, p: nat)
    requires Unpaid(hs) && p < |hs| && hs[p].Emits?
    ensures var i, late, now := IndexOf(hs, p), PlaceFrom(Billed(hs), agentId, n), PlaceFrom(AtOnce(hs), agentId, n);
            i < |late| == |now| && late[i].(usage := None) == now[i] && late[i].usage == CostAt(hs, p)
  {
    hide Placed, Billed, AtOnce, CostAt;
    BilledCarriesFirstReport(hs, p);
    IndexWithin(hs, p);
    var i := IndexOf(hs, p);
    PlaceFromAt(Billed(hs), agentId, n, i);
    PlaceFromAt(AtOnce(hs), agentId, n, i);
    CostChangesNoId(hs[p].draft, CostAt(hs, p), agentId, n + i, i);
  }

  /** The costs the events carry, in order. */
  ghost function Costed(ds: seq<Draft>): seq<Usage>
  {
    if ds == [] then []
    else
      var u := ds[|ds| - 1].event.usage;
      Costed(ds[..|ds| - 1]) + if u.Some? then [u.value] else []
  }

  /** The reports that follow an event directly, in order: the ones that are not repeats. */
  ghost function FirstReports(hs: seq<Happening>): seq<Usage>
  {
    if hs == [] then []
    else
      var k := |hs| - 1;
      FirstReports(hs[..k]) + if k > 0 && hs[k].Costs? && hs[k - 1].Emits? then [hs[k].usage] else []
  }

  lemma CostedStep(ds: seq<Draft>, d: Draft)
    ensures Costed(ds + [d]) == Costed(ds) + if d.event.usage.Some? then [d.event.usage.value] else []
  {
    assert (ds + [d])[..|ds|] == ds;
  }

  /** The last event waits for its cost exactly while nothing has followed it. */
  lemma LastWaits(hs: seq<Happening>)
    requires Unpaid(hs) && hs != [] && Billed(hs) != []
    ensures Billed(hs)[|Billed(hs)| - 1].event.usage == None <==> hs[|hs| - 1].Emits?
  {
    var before := Billed(hs[..|hs| - 1]);
    assert Billed(hs) == BillNext(before, hs[|hs| - 1]);
  }

  /** The costs billed are the reports that follow an event directly, each once and in order: none is billed twice. */
  lemma {:induction false} NoReportBilledTwice(hs: seq<Happening>)
    requires Unpaid(hs)
    ensures Costed(Billed(hs)) == FirstReports(hs)
  {
    if hs != [] {
      var k := |hs| - 1;
      var front, before := hs[..k], Billed(hs[..k]);
      NoReportBilledTwice(front);
      if hs[k].Emits? {
        CostedStep(before, hs[k].draft);
        assert FirstReports(hs) == FirstReports(front);
      } else if before == [] {
        NoEventYet(front);
      } else {
        var last := before[|before| - 1];
        LastWaits(front);
        assert before == before[..|before| - 1] + [last];
        CostedStep(before[..|before| - 1], last);
        CostedStep(before[..|before| - 1], Paid(last, hs[k].usage));
      }
    }
  }

  lemma NoEventYet(hs: seq<Happening>)
    requires Billed(hs) == []
    ensures hs == [] || hs[|hs| - 1].Costs?
  {
  }

  lemma {:induction false} HappensUnpaid(m: Metadata, session: string, agentId: string, lines: seq<RolloutLine>)
    ensures Unpaid(Happenings(m, session, agentId, lines).0)
  {
    if lines != [] { HappensUnpaid(m, session, agentId, lines[..|lines| - 1]); }
  }

  /** So over every rollout. */
  lemma RolloutRefines(m: Metadata, session: string, agentId: string, lines: seq<RolloutLine>, n: nat, p: nat)
    requires p < |Happenings(m, session, agentId, lines).0| && Happenings(m, session, agentId, lines).0[p].Emits?
    ensures var hs := Happenings(m, session, agentId, lines).0;
            var i, late, now := IndexOf(hs, p), PlaceFrom(Billed(hs), agentId, n), PlaceFrom(AtOnce(hs), agentId, n);
            i < |late| == |now| && late[i].(usage := None) == now[i] && late[i].usage == CostAt(hs, p)
  {
    hide Billed, AtOnce, Happenings, PlaceFrom;
    HappensUnpaid(m, session, agentId, lines);
    HoldBackRefines(Happenings(m, session, agentId, lines).0, agentId, n, p);
  }

  // --------------------------------------------------------------- the walker

  lemma BilledStart()
    ensures Billed([]) == []
  {
  }

  lemma BilledStep(hs: seq<Happening>, h: Happening)
    ensures Billed(hs + [h]) == BillNext(Billed(hs), h)
  {
    hide BillNext;
    assert (hs + [h])[..|hs|] == hs;
  }

  class Rollout {
    const muted: bool
    const session: string
    const agentId: string
    var seqs: map<string, nat>
    var out: seq<Event>
    var pending: Option<Draft>
    var ordinal: nat
    var events: nat
    var started: bool
    var cwd: string

    constructor (session: string, agentId: string, cwd: string, muted: bool, seqs: map<string, nat>)
      ensures this.session == session && this.agentId == agentId && this.muted == muted
      ensures this.seqs == seqs && out == [] && pending == None && ordinal == events == 0 && !started && this.cwd == cwd
    {
      this.session, this.agentId, this.muted, this.seqs, this.cwd := session, agentId, muted, seqs, cwd;
      out, pending, ordinal, events, started := [], None, 0, 0, false;
    }

    /** What has been numbered so far, the drafts that were released. */
    ghost predicate Released(seqs0: map<string, nat>, ds: seq<Draft>)
      reads this`seqs, this`out, this`ordinal, this`events
    {
      var stream := StreamKey(session, agentId);
      && ordinal == |ds|
      && seqs == (if ds == [] then seqs0 else seqs0[stream := NumberOf(seqs0, stream) + |ds|])
      && out == (if muted then [] else PlaceFrom(ds, agentId, NumberOf(seqs0, stream)))
      && events == |out|
    }

    /** All that happened has been released but for the one event held back. */
    ghost predicate Holding(seqs0: map<string, nat>, hs: seq<Happening>)
      reads this`seqs, this`out, this`ordinal, this`events, this`pending
    {
      var ds := Billed(hs);
      if pending == None then ds == [] && Released(seqs0, [])
      else
        && ds != [] && pending.value == ds[|ds| - 1] && pending.value.event.sessionId == session
        && Released(seqs0, ds[..|ds| - 1])
    }

    method Push(d: Draft, ghost seqs0: map<string, nat>, ghost ds: seq<Draft>)
      requires Released(seqs0, ds) && d.event.sessionId == session
      modifies this`seqs, this`out, this`ordinal, this`events
      ensures Released(seqs0, ds + [d])
    {
      hide Placed, StreamKey, PlaceFrom;
      var stream := StreamKey(d.event.sessionId, agentId);
      var n := NumberOf(seqs, stream);
      seqs := seqs[stream := n + 1];
      var e := Placed(d, agentId, n, ordinal);
      ordinal := ordinal + 1;
      if !muted {
        out := out + [e];
        events := events + 1;
      }
      PlaceFromStep(ds, d, agentId, NumberOf(seqs0, stream));
      PlaceFromStart(agentId, NumberOf(seqs0, stream));
    }

    method Flush(ghost seqs0: map<string, nat>, ghost hs: seq<Happening>)
      requires Holding(seqs0, hs)
      modifies this`seqs, this`out, this`ordinal, this`events, this`pending
      ensures pending == None && Released(seqs0, Billed(hs))
    {
      hide Released, Billed;
      if pending == None { return; }
      var d := pending.value;
      pending := None;
      ghost var ds := Billed(hs);
      assert ds == ds[..|ds| - 1] + [d];
      Push(d, seqs0, ds[..|ds| - 1]);
    }

    method Emit(d: Draft, ghost seqs0: map<string, nat>, ghost hs: seq<Happening>)
      requires Holding(seqs0, hs) && d.event.sessionId == session
      modifies this`seqs, this`out, this`ordinal, this`events, this`pending
      ensures Holding(seqs0, hs + [Emits(d)])
    {
      hide Released, Billed;
      Flush(seqs0, hs);
      pending := Some(d);
      BilledStep(hs, Emits(d));
      assert Billed(hs + [Emits(d)])[..|Billed(hs)|] == Billed(hs);
    }

    /** The first report wins: a second before the next event is a repeat. */
    method AttachUsage(u: Usage, ghost seqs0: map<string, nat>, ghost hs: seq<Happening>)
      requires Holding(seqs0, hs)
      modifies this`pending
      ensures Holding(seqs0, hs + [Costs(u)])
    {
      hide Released, Billed;
      BilledStep(hs, Costs(u));
      if pending == None { return; }
      var d := pending.value;
      ghost var ds := Billed(hs);
      if d.event.usage == None {
        pending := Some(d.(event := d.event.(usage := Some(u))));
      }
      assert Billed(hs + [Costs(u)])[..|ds| - 1] == ds[..|ds| - 1];
    }

    method Line(m: Metadata, l: RolloutLine, ghost seqs0: map<string, nat>, ghost hs: seq<Happening>)
      requires Holding(seqs0, hs)
      modifies this
      ensures var (more, st) := LineHappens(m, session, agentId, RolloutState(old(started), old(cwd)), l);
              Holding(seqs0, hs + more) && started == st.started && cwd == st.cwd
    {
      hide Holding, Canonical, ResponseDraft;
      assert hs + [] == hs;
      if l.BadLine? { return; }
      var time := l.at;
      if time.None? && l.body.SessionMeta? { time := m.timestamp; }
      if time.None? { return; }
      var base := BaseEvent(m, session, agentId, cwd, time.value, l.raw);
      ghost var now := hs + StartHappens(m, session, agentId, RolloutState(started, cwd), time.value, l.raw);
      if !started {
        started := true;
        Emit(Draft(base.(kind := if agentId != "" then SubagentStart else SessionStarted), "start"), seqs0, hs);
      }
      ghost var body := BodyHappens(base, l.body);
      assert Holding(seqs0, now);
      assert now + [] == now;
      match l.body {
        case TurnContext(dir) =>
          if dir != "" { cwd := dir; }
        case ResponseItem(r) =>
          var d := ResponseDraft(base, r);
          ResponseKeepsSession(base, r);
          if d.Some? { Emit(d.value, seqs0, now); }
        case Compacted(message) =>
          Emit(Draft(base.(kind := Compaction, text := message), "compaction"), seqs0, now);
        case TokenCount(last) =>
          if last.Some? {
            var u := Canonical(last.value);
            if u.Some? { AttachUsage(u.value, seqs0, now); }
          }
        case _ =>
      }
      assert Holding(seqs0, now + body);
      assert now + body
        == hs + (StartHappens(m, session, agentId, RolloutState(old(started), old(cwd)), time.value, l.raw) + body);
    }

    /** One rollout, read to its end: the events of the waiting walker, numbered on from the stream's last. */
    method File(m: Metadata, lines: seq<RolloutLine>)
      requires out == [] && pending == None && ordinal == events == 0 && !started && cwd == m.cwd
      modifies this
      ensures Released(old(seqs), Billed(Happenings(m, session, agentId, lines).0))
    {
      ghost var seqs0 := seqs;
      BilledStart();
      for i := 0 to |lines|
        invariant Holding(seqs0, Happenings(m, session, agentId, lines[..i]).0)
        invariant RolloutState(started, cwd) == Happenings(m, session, agentId, lines[..i]).1
      {
        hide Holding, LineHappens;
        Line(m, lines[i], seqs0, Happenings(m, session, agentId, lines[..i]).0);
        assert lines[..i + 1][..i] == lines[..i];
      }
      assert lines[..|lines|] == lines;
      Flush(seqs0, Happenings(m, session, agentId, lines).0);
    }
  }

  lemma ResponseKeepsSession(base: Event, r: Response)
    ensures ResponseDraft(base, r).Some? ==> ResponseDraft(base, r).value.event.sessionId == base.sessionId
  {
  }

  // ------------------------------------------------------------------ lineage

  /** Every rollout's parent by its own session id; empty for a root. */
  type Parents = map<string, string>

  /** The end of the ancestor line: a root, a session this machine does not hold, or where the line bites its tail. */
  function RootFrom(parents: Parents, id: string, seen: set<string>): string
    requires id in parents
    decreases |parents.Keys - seen|
  {
    var up := parents[id];
    if up == "" || up in seen then id
    else if up !in parents then up
    else
      assert parents.Keys - (seen + {up}) == (parents.Keys - seen) - {up};
      RootFrom(parents, up, seen + {up})
  }

  /** A line of ancestors, each once. */
  ghost predicate Climbs(parents: Parents, line: seq<string>)
  {
    && line != []
    && (forall i :: 0 <= i < |line| - 1 ==>
          line[i] in parents && parents[line[i]] != "" && line[i + 1] == parents[line[i]])
    && (forall i, j :: 0 <= i < j < |line| ==> line[i] != line[j])
  }

  /** Nothing more can be added to it. */
  ghost predicate Ends(parents: Parents, line: seq<string>)
    requires line != []
  {
    var top := line[|line| - 1];
    top !in parents || parents[top] == "" || parents[top] in line
  }

  ghost predicate IsRootOf(parents: Parents, self: string, root: string)
  {
    exists line :: Climbs(parents, line) && Ends(parents, line) && line[0] == self && line[|line| - 1] == root
  }

  lemma ClimbOn(parents: Parents, line: seq<string>)
    requires Climbs(parents, line) && line[|line| - 1] in parents
    requires parents[line[|line| - 1]] != "" && parents[line[|line| - 1]] !in line
    ensures Climbs(parents, line + [parents[line[|line| - 1]]])
  {
  }

  /** Where a rollout's events are filed: under the end of its line of ancestors, as that end's subagent. */
  method Lineage(parents: Parents, self: string) returns (session: string, agentId: string)
    requires self in parents
    ensures agentId == if parents[self] == "" then "" else self
    ensures IsRootOf(parents, self, session) && session == RootFrom(parents, self, {self})
  {
    var id, parent := self, parents[self];
    ghost var line := [self];
    if parent == "" {
      assert Climbs(parents, line) && Ends(parents, line);
      return id, "";
    }
    agentId := id;
    var seen := {id};
    while parent != "" && parent !in seen
      invariant id in parents && parent == parents[id]
      invariant Climbs(parents, line) && line[0] == self && line[|line| - 1] == id
      invariant forall x :: x in seen <==> x in line
      invariant RootFrom(parents, self, {self}) == RootFrom(parents, id, seen)
      decreases |parents.Keys - seen|
    {
      ClimbOn(parents, line);
      line := line + [parent];
      if parent !in parents {
        assert Ends(parents, line);
        return parent, agentId;
      }
      assert parents.Keys - (seen + {parent}) == (parents.Keys - seen) - {parent};
      seen := seen + {parent};
      id, parent := parent, parents[parent];
    }
    assert Ends(parents, line);
    return id, agentId;
  }

  /** The ancestors of id, the ones not yet seen. */
  ghost function Ancestors(parents: Parents, id: string, seen: set<string>): set<string>
    requires id in parents
    decreases |parents.Keys - seen|
  {
    var up := parents[id];
    if up == "" || up in seen then {}
    else if up !in parents then {up}
    else
      assert parents.Keys - (seen + {up}) == (parents.Keys - seen) - {up};
      {up} + Ancestors(parents, up, seen + {up})
  }

  lemma {:induction false} UnmetSeenDoesNotMatter(parents: Parents, id: string, seen: set<string>, x: string)
    requires id in parents && x !in Ancestors(parents, id, seen)
    ensures RootFrom(parents, id, seen + {x}) == RootFrom(parents, id, seen)
    decreases |parents.Keys - seen|
  {
    var up := parents[id];
    if up != "" && up !in seen && up in parents {
      assert parents.Keys - (seen + {up}) == (parents.Keys - seen) - {up};
      UnmetSeenDoesNotMatter(parents, up, seen + {up}, x);
      assert seen + {x} + {up} == seen + {up} + {x};
    }
  }

  /** A subagent is filed under the session its parent is filed under, unless it is its own ancestor. */
  lemma SubagentFollowsParent(parents: Parents, child: string)
    requires child in parents && parents[child] in parents && parents[child] != "" && parents[child] != child
    requires child !in Ancestors(parents, parents[child], {parents[child]})
    ensures RootFrom(parents, child, {child}) == RootFrom(parents, parents[child], {parents[child]})
  {
    var up := parents[child];
    UnmetSeenDoesNotMatter(parents, up, {up}, child);
    assert {child} + {up} == {up} + {child};
  }
}
