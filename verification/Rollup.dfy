/** The session rollup: what folding events into it adds up to, whatever order they come in. */
module Rollup {
  import opened Events
  import R = Receiver
  import Utf8

  const PROMPT_LIMIT: nat := 500

  datatype Session = Session(
    sessionId: string,
    parentSessionId: string,
    source: string,
    cwd: string,
    gitBranch: string,
    startedAt: Time,
    endedAt: Time,
    ended: bool,
    userTurns: nat,
    toolCalls: nat,
    subagents: nat,
    compactions: nat,
    errors: nat,
    usage: Usage,
    firstPrompt: string,
    harnessVersions: seq<string>,
    redactions: map<string, nat>)

  const EMPTY := Session("", "", "", "", "", ZERO_TIME, ZERO_TIME, false, 0, 0, 0, 0, 0, NO_USAGE, "", [], map[])

  function AddUsage(total: Usage, u: Option<Usage>): Usage
  {
    match u
    case None => total
    case Some(v) =>
      total.(input := total.input + v.input, output := total.output + v.output,
             cacheRead := total.cacheRead + v.cacheRead, cacheCreation := total.cacheCreation + v.cacheCreation,
             ephemeral5m := total.ephemeral5m + v.ephemeral5m, ephemeral1h := total.ephemeral1h + v.ephemeral1h)
  }

  function Count(m: map<string, nat>, k: string): nat
  {
    if k in m then m[k] else 0
  }

  function AddCounts(sum: map<string, nat>, more: map<string, nat>): (r: map<string, nat>)
    ensures forall k :: k in r <==> k in sum || k in more
    ensures forall k :: Count(r, k) == Count(sum, k) + Count(more, k)
  {
    map k | k in sum.Keys + more.Keys :: Count(sum, k) + Count(more, k)
  }

  function One(b: bool): nat
  {
    if b then 1 else 0
  }

  /** Apply. */
  function Applied(s: Session, e: Event): Session
  {
    Session(
      if s.sessionId == "" then e.sessionId else s.sessionId,
      if e.parentSessionId != "" then e.parentSessionId else s.parentSessionId,
      if s.sessionId == "" then e.source else s.source,
      if e.cwd != "" then e.cwd else s.cwd,
      if e.gitBranch != "" then e.gitBranch else s.gitBranch,
      if s.startedAt == ZERO_TIME || e.occurredAt < s.startedAt then e.occurredAt else s.startedAt,
      if e.occurredAt > s.endedAt then e.occurredAt else s.endedAt,
      s.ended || e.kind == SessionEnded,
      s.userTurns + One(e.kind == UserPrompt),
      s.toolCalls + One(e.kind == ToolCall),
      s.subagents + One(e.kind == SubagentStart),
      s.compactions + One(e.kind == Compaction),
      s.errors + One(e.kind == ToolFailed),
      AddUsage(s.usage, e.usage),
      if e.kind == UserPrompt && s.firstPrompt == "" then Utf8.Truncated(e.text, PROMPT_LIMIT) else s.firstPrompt,
      if e.harnessVersion != "" && e.harnessVersion !in s.harnessVersions then s.harnessVersions + [e.harnessVersion]
      else s.harnessVersions,
      AddCounts(s.redactions, e.redactions))
  }

  function Folded(s: Session, evs: seq<Event>): Session
    decreases |evs|
  {
    if evs == [] then s else Folded(Applied(s, evs[0]), evs[1..])
  }

  // ---------------------------------------------------------- order independence

  /** The part of a rollup that no order at all may change. */
  datatype Totals = Totals(
    endedAt: Time,
    ended: bool,
    counters: (nat, nat, nat, nat, nat),
    usage: Usage,
    redactions: map<string, nat>,
    versions: set<string>)

  ghost function TotalsOf(s: Session): Totals
  {
    Totals(s.endedAt, s.ended, (s.userTurns, s.toolCalls, s.subagents, s.compactions, s.errors),
           s.usage, s.redactions, set v | v in s.harnessVersions)
  }

  /** Apply as it acts on the totals alone. */
  ghost function AppliedTotals(t: Totals, e: Event): Totals
  {
    Totals(
      if e.occurredAt > t.endedAt then e.occurredAt else t.endedAt,
      t.ended || e.kind == SessionEnded,
      (t.counters.0 + One(e.kind == UserPrompt), t.counters.1 + One(e.kind == ToolCall),
       t.counters.2 + One(e.kind == SubagentStart), t.counters.3 + One(e.kind == Compaction),
       t.counters.4 + One(e.kind == ToolFailed)),
      AddUsage(t.usage, e.usage),
      AddCounts(t.redactions, e.redactions),
      if e.harnessVersion != "" then t.versions + {e.harnessVersion} else t.versions)
  }

  ghost function FoldedTotals(t: Totals, evs: seq<Event>): Totals
    decreases |evs|
  {
    if evs == [] then t else FoldedTotals(AppliedTotals(t, evs[0]), evs[1..])
  }

  lemma TotalsFollowOne(s: Session, e: Event)
    ensures TotalsOf(Applied(s, e)) == AppliedTotals(TotalsOf(s), e)
  {
    assert TotalsOf(Applied(s, e)).versions == AppliedTotals(TotalsOf(s), e).versions;
  }

  lemma {:induction false} TotalsFollow(s: Session, evs: seq<Event>)
    ensures TotalsOf(Folded(s, evs)) == FoldedTotals(TotalsOf(s), evs)
    decreases |evs|
  {
    if evs != [] {
      TotalsFollowOne(s, evs[0]);
      TotalsFollow(Applied(s, evs[0]), evs[1..]);
    }
  }

  lemma CountsCommute(m: map<string, nat>, a: map<string, nat>, b: map<string, nat>)
    ensures AddCounts(AddCounts(m, a), b) == AddCounts(AddCounts(m, b), a)
  {
    var x, y := AddCounts(AddCounts(m, a), b), AddCounts(AddCounts(m, b), a);
    forall k | k in x ensures k in y && x[k] == y[k] {
      assert Count(x, k) == Count(m, k) + Count(a, k) + Count(b, k) == Count(y, k);
    }
  }

  lemma UsageCommutes(total: Usage, a: Option<Usage>, b: Option<Usage>)
    ensures AddUsage(AddUsage(total, a), b) == AddUsage(AddUsage(total, b), a)
  {
  }

  lemma AppliedCommutes(t: Totals, a: Event, b: Event)
    ensures AppliedTotals(AppliedTotals(t, a), b) == AppliedTotals(AppliedTotals(t, b), a)
  {
    CountsCommute(t.redactions, a.redactions, b.redactions);
    UsageCommutes(t.usage, a.usage, b.usage);
    hide AddUsage, AddCounts;
  }

  /** An event can be folded first instead of where it stands. */
  lemma {:induction false} FoldFirst(t: Totals, before: seq<Event>, e: Event, after: seq<Event>)
    ensures FoldedTotals(t, before + [e] + after) == FoldedTotals(AppliedTotals(t, e), before + after)
    decreases |before|
  {
    if before == [] {
      assert before + [e] + after == [e] + after && before + after == after;
      assert ([e] + after)[1..] == after;
    } else {
      var rest := before[1..];
      assert (before + [e] + after)[1..] == rest + [e] + after && (before + after)[1..] == rest + after;
      FoldFirst(AppliedTotals(t, before[0]), rest, e, after);
      AppliedCommutes(t, e, before[0]);
    }
  }

  /** Of two sequences with the same elements, the second holds the head of the first somewhere. */
  lemma HeadAppears<T>(one: seq<T>, other: seq<T>) returns (k: nat)
    requires one != [] && multiset(one) == multiset(other)
    ensures k < |other| && other == other[..k] + ([one[0]] + other[k + 1..])
    ensures one == [] + ([one[0]] + one[1..]) && [] + one[1..] == one[1..]
    ensures multiset(one[1..]) == multiset(other[..k] + other[k + 1..])
  {
    assert one == [one[0]] + one[1..];
    assert one[0] in multiset(other);
    k :| 0 <= k < |other| && other[k] == one[0];
    assert other == other[..k] + ([one[0]] + other[k + 1..]);
    assert multiset(one[1..]) == multiset(one) - multiset{one[0]};
    assert multiset(other[..k] + other[k + 1..]) == multiset(other) - multiset{one[0]};
  }

  lemma {:induction false} TotalsAnyOrder(t: Totals, one: seq<Event>, other: seq<Event>)
    requires multiset(one) == multiset(other)
    ensures FoldedTotals(t, one) == FoldedTotals(t, other)
    decreases |one|
  {
    if one == [] {
      assert |multiset(other)| == 0;
    } else {
      var k := HeadAppears(one, other);
      var before, after := other[..k], other[k + 1..];
      assert before + [one[0]] + after == before + ([one[0]] + after);
      FoldFirst(t, before, one[0], after);
      TotalsAnyOrder(AppliedTotals(t, one[0]), one[1..], before + after);
    }
  }

  // ----------------------------------------------------------- the start time

  /** The start as the fold sets it: the zero time stands for "not set". */
  ghost function StartFrom(start: Time, evs: seq<Event>): Time
  {
    if evs == [] then start
    else
      var before, last := StartFrom(start, evs[..|evs| - 1]), evs[|evs| - 1].occurredAt;
      if before == ZERO_TIME || last < before then last else before
  }

  lemma {:induction false} FoldedSnoc(s: Session, evs: seq<Event>, e: Event)
    ensures Folded(s, evs + [e]) == Applied(Folded(s, evs), e)
    decreases |evs|
  {
    hide Applied;
    if evs == [] {
      assert [e][1..] == [] && evs + [e] == [e];
    } else {
      assert (evs + [e])[1..] == evs[1..] + [e];
      FoldedSnoc(Applied(s, evs[0]), evs[1..], e);
    }
  }

  lemma FoldedNone(s: Session)
    ensures Folded(s, []) == s
  {
  }

  lemma TimesApplied(s: Session, e: Event)
    ensures Applied(s, e).startedAt
            == if s.startedAt == ZERO_TIME || e.occurredAt < s.startedAt then e.occurredAt else s.startedAt
    ensures Applied(s, e).endedAt == if e.occurredAt > s.endedAt then e.occurredAt else s.endedAt
  {
    hide AddUsage, AddCounts;
  }

  lemma {:induction false} StartOfFold(s: Session, evs: seq<Event>)
    ensures Folded(s, evs).startedAt == StartFrom(s.startedAt, evs)
  {
    hide Folded, Applied;
    if evs != [] {
      var front, last := evs[..|evs| - 1], evs[|evs| - 1];
      assert evs == front + [last];
      FoldedSnoc(s, front, last);
      StartOfFold(s, front);
      TimesApplied(Folded(s, front), last);
    } else {
      FoldedNone(s);
    }
  }

  ghost predicate SomeBefore(evs: seq<Event>) { exists e :: e in evs && e.occurredAt < ZERO_TIME }
  ghost predicate SomeAt(evs: seq<Event>) { exists e :: e in evs && e.occurredAt == ZERO_TIME }
  ghost predicate SomeAfter(evs: seq<Event>) { exists e :: e in evs && e.occurredAt > ZERO_TIME }

  /** No event is at the zero time, or none is after it, or one is before it. */
  ghost predicate Clear(evs: seq<Event>)
  {
    !SomeAt(evs) || !SomeAfter(evs) || SomeBefore(evs)
  }

  /** The earliest of the times folded in and of the start there was, if there was one. */
  ghost predicate IsEarliest(start: Time, evs: seq<Event>, r: Time)
  {
    && ((r == start && start != ZERO_TIME) || exists e :: e in evs && e.occurredAt == r)
    && (start != ZERO_TIME ==> r <= start)
    && forall e :: e in evs ==> r <= e.occurredAt
  }

  lemma {:induction false} StartStaysAfter(start: Time, evs: seq<Event>)
    requires start >= ZERO_TIME && !SomeBefore(evs)
    ensures StartFrom(start, evs) >= ZERO_TIME
    ensures start == ZERO_TIME && !SomeAfter(evs) ==> StartFrom(start, evs) == ZERO_TIME
  {
    if evs != [] { StartStaysAfter(start, evs[..|evs| - 1]); }
  }

  lemma {:induction false} EarliestBefore(start: Time, evs: seq<Event>)
    requires start < ZERO_TIME || SomeBefore(evs)
    ensures var r := StartFrom(start, evs); r < ZERO_TIME && IsEarliest(start, evs, r)
  {
    if evs != [] {
      var front, last := evs[..|evs| - 1], evs[|evs| - 1];
      assert evs == front + [last];
      if start < ZERO_TIME || SomeBefore(front) {
        EarliestBefore(start, front);
      } else {
        StartStaysAfter(start, front);
      }
    }
  }

  lemma {:induction false} EarliestTimed(start: Time, evs: seq<Event>)
    requires !SomeAt(evs) && (start != ZERO_TIME || evs != [])
    ensures StartFrom(start, evs) != ZERO_TIME && IsEarliest(start, evs, StartFrom(start, evs))
  {
    if evs != [] {
      var front, last := evs[..|evs| - 1], evs[|evs| - 1];
      assert evs == front + [last];
      if start != ZERO_TIME || front != [] { EarliestTimed(start, front); }
    }
  }

  lemma {:induction false} EarliestUpToZero(start: Time, evs: seq<Event>)
    requires start >= ZERO_TIME && !SomeBefore(evs) && !SomeAfter(evs) && evs != []
    ensures StartFrom(start, evs) == ZERO_TIME
  {
    if |evs| > 1 { EarliestUpToZero(start, evs[..|evs| - 1]); }
  }

  /** The start a fold leaves is the earliest time. */
  lemma StartIsEarliest(start: Time, evs: seq<Event>)
    requires (start < ZERO_TIME || Clear(evs)) && (start != ZERO_TIME || evs != [])
    ensures IsEarliest(start, evs, StartFrom(start, evs))
  {
    if start < ZERO_TIME || SomeBefore(evs) {
      EarliestBefore(start, evs);
    } else if !SomeAt(evs) {
      EarliestTimed(start, evs);
    } else {
      EarliestUpToZero(start, evs);
    }
  }

  /** The same events put in another order, with the chosen one last. */
  lemma PutLast(evs: seq<Event>, e: Event) returns (other: seq<Event>, front: seq<Event>)
    requires e in evs
    ensures other == front + [e] && multiset(other) == multiset(evs) && forall x :: x in front ==> x in evs
  {
    var k :| 0 <= k < |evs| && evs[k] == e;
    front := evs[..k] + evs[k + 1..];
    other := front + [e];
    assert evs == evs[..k] + [e] + evs[k + 1..];
  }

  ghost predicate SameStart(s: Session, evs: seq<Event>, other: seq<Event>)
  {
    Folded(s, other).startedAt == Folded(s, evs).startedAt
  }

  /** No order of the events changes the start. */
  ghost predicate StartSettled(s: Session, evs: seq<Event>)
  {
    forall other :: multiset(other) == multiset(evs) ==> SameStart(s, evs, other)
  }

  lemma SameTimes(evs: seq<Event>, other: seq<Event>)
    requires multiset(other) == multiset(evs)
    ensures forall e :: e in other <==> e in evs
  {
    forall e ensures e in other <==> e in evs {
      assert e in multiset(other) <==> e in multiset(evs);
    }
  }

  lemma ClearSettles(s: Session, evs: seq<Event>, other: seq<Event>)
    requires multiset(other) == multiset(evs) && (s.startedAt < ZERO_TIME || Clear(evs))
    ensures SameStart(s, evs, other)
  {
    SameTimes(evs, other);
    StartOfFold(s, evs);
    StartOfFold(s, other);
    if evs == [] {
      assert |multiset(other)| == 0;
    } else {
      assert evs[0] in other;
      hide StartFrom;
      StartIsEarliest(s.startedAt, evs);
      StartIsEarliest(s.startedAt, other);
    }
  }

  lemma MixedUnsettles(s: Session, evs: seq<Event>)
    requires s.startedAt >= ZERO_TIME && !Clear(evs)
    ensures !StartSettled(s, evs)
  {
    var z :| z in evs && z.occurredAt == ZERO_TIME;
    var p :| p in evs && p.occurredAt > ZERO_TIME;
    var zeroLast, beforeZero := PutLast(evs, z);
    var laterLast, beforeLater := PutLast(evs, p);
    StartOfFold(s, zeroLast);
    StartOfFold(s, laterLast);
    StartStaysAfter(s.startedAt, beforeZero);
    StartStaysAfter(s.startedAt, beforeLater);
    assert zeroLast[..|zeroLast| - 1] == beforeZero && laterLast[..|laterLast| - 1] == beforeLater;
    assert !SameStart(s, evs, zeroLast) || !SameStart(s, evs, laterLast);
  }

  /**
   * The start is the same in every order exactly when it was before the zero time already, or no
   * event is at the zero time, or none is after it, or one is before it.
   */
  lemma StartSettledExactly(s: Session, evs: seq<Event>)
    ensures StartSettled(s, evs) <==> s.startedAt < ZERO_TIME || Clear(evs)
  {
    hide Folded, Clear, SameStart;
    if s.startedAt < ZERO_TIME || Clear(evs) {
      forall other | multiset(other) == multiset(evs) ensures SameStart(s, evs, other) { ClearSettles(s, evs, other); }
    } else {
      MixedUnsettles(s, evs);
    }
  }

  /**
   * Folding the same events in any order gives the same counters, usage and redaction sums, end
   * time and set of harness versions; and the same start, where no event is at the zero time.
   */
  lemma FoldAnyOrder(s: Session, one: seq<Event>, other: seq<Event>)
    requires multiset(one) == multiset(other)
    ensures TotalsOf(Folded(s, one)) == TotalsOf(Folded(s, other))
    ensures !SomeAt(one) ==> Folded(s, one).startedAt == Folded(s, other).startedAt
  {
    TotalsFollow(s, one);
    TotalsFollow(s, other);
    TotalsAnyOrder(TotalsOf(s), one, other);
    if !SomeAt(one) { ClearSettles(s, one, other); }
  }

  // -------------------------------------------------------------- the end time

  ghost function EndFrom(end: Time, evs: seq<Event>): Time
  {
    if evs == [] then end
    else
      var before, last := EndFrom(end, evs[..|evs| - 1]), evs[|evs| - 1].occurredAt;
      if last > before then last else before
  }

  lemma {:induction false} EndOfFold(s: Session, evs: seq<Event>)
    ensures Folded(s, evs).endedAt == EndFrom(s.endedAt, evs)
  {
    hide Folded, Applied;
    if evs != [] {
      var front, last := evs[..|evs| - 1], evs[|evs| - 1];
      assert evs == front + [last];
      FoldedSnoc(s, front, last);
      EndOfFold(s, front);
      TimesApplied(Folded(s, front), last);
    } else {
      FoldedNone(s);
    }
  }

  lemma {:induction false} EndIsLatest(end: Time, evs: seq<Event>)
    ensures
      var r := EndFrom(end, evs);
      && (r == end || exists e :: e in evs && e.occurredAt == r)
      && r >= end && forall e :: e in evs ==> e.occurredAt <= r
  {
    if evs != [] {
      var front, last := evs[..|evs| - 1], evs[|evs| - 1];
      assert evs == front + [last];
      EndIsLatest(end, front);
    }
  }

  /**
   * The span is from the earliest to the latest time folded in; a session all of whose events are
   * before the zero time keeps the zero time as its end.
   */
  lemma SpanIsMinMax(evs: seq<Event>)
    requires Clear(evs) && evs != []
    ensures
      var s := Folded(EMPTY, evs);
      && (exists e :: e in evs && s.startedAt == e.occurredAt)
      && (forall e :: e in evs ==> s.startedAt <= e.occurredAt <= s.endedAt)
      && ((exists e :: e in evs && s.endedAt == e.occurredAt) || (s.endedAt == ZERO_TIME && !SomeAfter(evs)))
  {
    hide StartFrom, EndFrom;
    StartOfFold(EMPTY, evs);
    StartIsEarliest(ZERO_TIME, evs);
    EndOfFold(EMPTY, evs);
    EndIsLatest(ZERO_TIME, evs);
  }

  // ------------------------------------------------- redelivery and the rollup

  lemma {:induction false} OfSessionAppend(s: R.Server, a: seq<string>, b: seq<string>, session: string)
    requires forall id :: id in a + b ==> id in s.stored
    ensures (forall id :: id in a ==> id in s.stored) && (forall id :: id in b ==> id in s.stored)
    ensures R.OfSession(s, a + b, session) == R.OfSession(s, a, session) + R.OfSession(s, b, session)
    decreases |b|
  {
    forall id | id in a || id in b ensures id in s.stored { assert id in a + b; }
    if b == [] {
      assert a + b == a;
    } else {
      var front := b[..|b| - 1];
      assert (a + b)[..|a + b| - 1] == a + front;
      forall id | id in a + front ensures id in s.stored { assert id in a + b; }
      OfSessionAppend(s, a, front, session);
    }
  }

  lemma OfSessionTakeOut(s: R.Server, before: seq<string>, id: string, after: seq<string>, session: string)
    requires forall x :: x in before + ([id] + after) ==> x in s.stored
    ensures forall x :: x in before + after ==> x in s.stored
    ensures id in s.stored
    ensures multiset(R.OfSession(s, before + ([id] + after), session))
            == multiset(R.OfSession(s, [id], session)) + multiset(R.OfSession(s, before + after, session))
  {
    assert forall x :: x in before + after ==> x in before + ([id] + after);
    OfSessionAppend(s, before, [id] + after, session);
    OfSessionAppend(s, [id], after, session);
    OfSessionAppend(s, before, after, session);
  }

  lemma {:induction false} OfSessionAnyOrder(s: R.Server, one: seq<string>, other: seq<string>, session: string)
    requires multiset(one) == multiset(other)
    requires (forall id :: id in one ==> id in s.stored) && (forall id :: id in other ==> id in s.stored)
    ensures multiset(R.OfSession(s, one, session)) == multiset(R.OfSession(s, other, session))
    decreases |one|
  {
    if one == [] {
      assert |multiset(other)| == 0;
    } else {
      var k := HeadAppears(one, other);
      var before, after := other[..k], other[k + 1..];
      OfSessionTakeOut(s, [], one[0], one[1..], session);
      OfSessionTakeOut(s, before, one[0], after, session);
      OfSessionAnyOrder(s, one[1..], before + after, session);
    }
  }

  lemma {:induction false} SessionTimed(s: R.Server, ids: seq<string>, session: string)
    requires forall id :: id in ids ==> id in s.stored && s.stored[id].occurredAt != ZERO_TIME
    ensures !SomeAt(R.OfSession(s, ids, session))
  {
    if ids != [] { SessionTimed(s, ids[..|ids| - 1], session); }
  }

  lemma {:induction false} FirstIsTimed(history: seq<R.Delivery>, id: string)
    ensures R.FirstOf(history, id).Some? ==> R.FirstOf(history, id).value.occurredAt != ZERO_TIME
  {
    if history != [] { FirstIsTimed(history[..|history| - 1], id); }
  }

  lemma StoredIsTimed(history: seq<R.Delivery>, now: Time)
    ensures var s := R.Ingested(R.EMPTY, history, now);
            forall id :: id in s.arrival ==> id in s.stored && s.stored[id].occurredAt != ZERO_TIME
  {
    R.FirstDeliveryStays(history, now);
    var s := R.Ingested(R.EMPTY, history, now);
    forall id | id in s.arrival ensures id in s.stored && s.stored[id].occurredAt != ZERO_TIME {
      FirstIsTimed(history, id);
    }
  }

  /**
   * The rollup of a session is the same whatever redelivery and reordering its
   * events went through on the wire: nothing the server stored is counted twice.
   */
  lemma RollupSurvivesRedelivery(
      one: seq<R.Delivery>, other: seq<R.Delivery>, event: string -> Event, now: Time, now': Time, session: string)
    requires R.OneEventPerId(one, event) && R.OneEventPerId(other, event)
    requires forall id :: R.Brings(one, id) <==> R.Brings(other, id)
    ensures
      var s, t := R.Ingested(R.EMPTY, one, now), R.Ingested(R.EMPTY, other, now');
      && R.Consistent(s) && R.Consistent(t)
      && TotalsOf(Folded(EMPTY, R.OfSession(s, s.arrival, session)))
         == TotalsOf(Folded(EMPTY, R.OfSession(t, t.arrival, session)))
      && Folded(EMPTY, R.OfSession(s, s.arrival, session)).startedAt
         == Folded(EMPTY, R.OfSession(t, t.arrival, session)).startedAt
  {
    var s, t := R.Ingested(R.EMPTY, one, now), R.Ingested(R.EMPTY, other, now');
    R.FirstDeliveryStays(one, now);
    R.FirstDeliveryStays(other, now');
    R.ExactlyOnce(one, other, event, now, now');
    StoredIsTimed(one, now);
    OfSessionAnyOrder(s, s.arrival, t.arrival, session);
    SameStoreSameSession(s, t, t.arrival, session);
    SessionTimed(s, s.arrival, session);
    FoldAnyOrder(EMPTY, R.OfSession(s, s.arrival, session), R.OfSession(t, t.arrival, session));
  }

  lemma {:induction false} SameStoreSameSession(s: R.Server, t: R.Server, ids: seq<string>, session: string)
    requires s.stored == t.stored && forall id :: id in ids ==> id in s.stored
    ensures R.OfSession(s, ids, session) == R.OfSession(t, ids, session)
  {
    if ids != [] { SameStoreSameSession(s, t, ids[..|ids| - 1], session); }
  }

  // ------------------------------------------------------------------ the class

  class Tally {
    var sessionId: string
    var parentSessionId: string
    var source: string
    var cwd: string
    var gitBranch: string
    var startedAt: Time
    var endedAt: Time
    var ended: bool
    var userTurns: nat
    var toolCalls: nat
    var subagents: nat
    var compactions: nat
    var errors: nat
    var usage: Usage
    var firstPrompt: string
    var harnessVersions: seq<string>
    var redactions: map<string, nat>

    function Contents(): Session
      reads this
    {
      Session(sessionId, parentSessionId, source, cwd, gitBranch, startedAt, endedAt, ended, userTurns, toolCalls,
              subagents, compactions, errors, usage, firstPrompt, harnessVersions, redactions)
    }

    constructor ()
      ensures Contents() == EMPTY
    {
      sessionId, parentSessionId, source, cwd, gitBranch := "", "", "", "", "";
      startedAt, endedAt, ended := ZERO_TIME, ZERO_TIME, false;
      userTurns, toolCalls, subagents, compactions, errors := 0, 0, 0, 0, 0;
      usage, firstPrompt, harnessVersions, redactions := NO_USAGE, "", [], map[];
    }

    /** The switch on the event's type. */
    method CountKind(e: Event)
      modifies this`userTurns, this`firstPrompt, this`toolCalls, this`errors, this`subagents, this`compactions,
               this`ended
      ensures userTurns == old(userTurns) + One(e.kind == UserPrompt)
      ensures toolCalls == old(toolCalls) + One(e.kind == ToolCall)
      ensures subagents == old(subagents) + One(e.kind == SubagentStart)
      ensures compactions == old(compactions) + One(e.kind == Compaction)
      ensures errors == old(errors) + One(e.kind == ToolFailed)
      ensures ended == (old(ended) || e.kind == SessionEnded)
      ensures firstPrompt == if e.kind == UserPrompt && old(firstPrompt) == "" then Utf8.Truncated(e.text, PROMPT_LIMIT)
                             else old(firstPrompt)
    {
      match e.kind {
        case UserPrompt =>
          userTurns := userTurns + 1;
          if firstPrompt == "" { firstPrompt := Utf8.Truncate(e.text, PROMPT_LIMIT); }
        case ToolCall => toolCalls := toolCalls + 1;
        case ToolFailed => errors := errors + 1;
        case SubagentStart => subagents := subagents + 1;
        case Compaction => compactions := compactions + 1;
        case SessionEnded => ended := true;
        case _ =>
      }
    }

    /** Where: the fields Apply sets once, replaces or extends. */
    method Situate(e: Event)
      modifies this`sessionId, this`source, this`parentSessionId, this`cwd, this`gitBranch, this`harnessVersions
      ensures sessionId == if old(sessionId) == "" then e.sessionId else old(sessionId)
      ensures source == if old(sessionId) == "" then e.source else old(source)
      ensures parentSessionId == if e.parentSessionId != "" then e.parentSessionId else old(parentSessionId)
      ensures cwd == if e.cwd != "" then e.cwd else old(cwd)
      ensures gitBranch == if e.gitBranch != "" then e.gitBranch else old(gitBranch)
      ensures harnessVersions == if e.harnessVersion != "" && e.harnessVersion !in old(harnessVersions)
                                 then old(harnessVersions) + [e.harnessVersion] else old(harnessVersions)
    {
      if sessionId == "" { sessionId, source := e.sessionId, e.source; }
      if e.parentSessionId != "" { parentSessionId := e.parentSessionId; }
      if e.cwd != "" { cwd := e.cwd; }
      if e.gitBranch != "" { gitBranch := e.gitBranch; }
      if e.harnessVersion != "" && e.harnessVersion !in harnessVersions {
        harnessVersions := harnessVersions + [e.harnessVersion];
      }
    }

    /** When: the span widens to the event's time. */
    method Widen(e: Event)
      modifies this`startedAt, this`endedAt
      ensures startedAt == if old(startedAt) == ZERO_TIME || e.occurredAt < old(startedAt) then e.occurredAt
                           else old(startedAt)
      ensures endedAt == if e.occurredAt > old(endedAt) then e.occurredAt else old(endedAt)
    {
      if startedAt == ZERO_TIME || e.occurredAt < startedAt { startedAt := e.occurredAt; }
      if e.occurredAt > endedAt { endedAt := e.occurredAt; }
    }

    /** Apply: the rollup after an event is the specification's. */
    method Apply(e: Event)
      modifies this
      ensures Contents() == Applied(old(Contents()), e)
    {
      Situate(e);
      Widen(e);
      CountKind(e);
      usage := AddUsage(usage, e.usage);
      redactions := AddCounts(redactions, e.redactions);
    }
  }
}
