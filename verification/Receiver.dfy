/** The reference server: idempotent by id, one verdict per item, sessions read back by sequence number. */
module Receiver {
  import opened Events

  const NO_ID := "missing id"
  const NO_SESSION := "missing session_id"
  const BAD_PAYLOAD := "payload is not valid json"
  const INVALID := "event failed validation"
  const TOO_BIG := "batch exceeds the server's size limit"

  datatype Refused = Refused(id: string, reason: string)

  datatype Answer = Answer(accepted: seq<string>, rejected: seq<Refused>)

  datatype Server = Server(
    stored: map<string, Event>,
    arrival: seq<string>,
    ingestedAt: map<string, Time>,
    rejected: nat,
    redundant: nat)

  const EMPTY := Server(map[], [], map[], 0, 0)

  /** Event.Validate. */
  predicate WellFormed(e: Event)
  {
    && e.sessionId != "" && e.kind != Untyped && e.source != "" && e.origin != ""
    && e.occurredAt != ZERO_TIME && e.id != ""
  }

  /** validate: None when the item is storable, else the reason it is not. */
  function Refusal(it: Item): Option<string>
  {
    if it.id == "" then Some(NO_ID)
    else if it.sessionId == "" then Some(NO_SESSION)
    else
      match it.payload
      case Blank => Some(BAD_PAYLOAD)
      case Malformed => Some(BAD_PAYLOAD)
      case Carries(e) => if WellFormed(e) then None else Some(INVALID)
  }

  /** One item as it reached the server, with whether its request was over the size limit. */
  datatype Delivery = Delivery(item: Item, tooBig: bool)

  predicate Storable(d: Delivery)
  {
    !d.tooBig && Refusal(d.item) == None
  }

  function IngestOne(s: Server, d: Delivery, now: Time): Server
  {
    if !Storable(d) then s.(rejected := s.rejected + 1)
    else if d.item.id in s.stored then s.(redundant := s.redundant + 1)
    else s.(stored := s.stored[d.item.id := d.item.payload.event],
            arrival := s.arrival + [d.item.id],
            ingestedAt := s.ingestedAt[d.item.id := now])
  }

  /** Everything that ever reached the server, request boundaries forgotten. */
  function Ingested(s: Server, history: seq<Delivery>, now: Time): Server
  {
    if history == [] then s
    else IngestOne(Ingested(s, history[..|history| - 1], now), history[|history| - 1], now)
  }

  // ------------------------------------------------------------- the verdict

  function AcceptedIds(items: seq<Delivery>): seq<string>
  {
    if items == [] then []
    else
      var before, d := AcceptedIds(items[..|items| - 1]), items[|items| - 1];
      if Storable(d) then before + [d.item.id] else before
  }

  function Refusals(items: seq<Delivery>): seq<Refused>
  {
    if items == [] then []
    else
      var before, d := Refusals(items[..|items| - 1]), items[|items| - 1];
      if d.tooBig then before + [Refused(d.item.id, TOO_BIG)]
      else if Refusal(d.item).Some? then before + [Refused(d.item.id, Refusal(d.item).value)]
      else before
  }

  /** One more delivery, on the store and on the answer. */
  lemma BatchStep(s: Server, front: seq<Delivery>, d: Delivery, now: Time)
    ensures Ingested(s, front + [d], now) == IngestOne(Ingested(s, front, now), d, now)
    ensures AcceptedIds(front + [d]) == AcceptedIds(front) + if Storable(d) then [d.item.id] else []
    ensures Refusals(front + [d])
            == Refusals(front) + if Storable(d) then []
                                 else [Refused(d.item.id, if d.tooBig then TOO_BIG else Refusal(d.item).value)]
  {
    hide Refusal, IngestOne;
    assert (front + [d])[..|front|] == front;
  }

  /** Each item gets exactly one verdict; what is accepted is stored, and only what was sent is named. */
  lemma {:induction false} OneVerdictEach(s: Server, items: seq<Delivery>, now: Time)
    ensures |AcceptedIds(items)| + |Refusals(items)| == |items|
    ensures forall d :: d in items && Storable(d) ==> d.item.id in AcceptedIds(items)
    ensures forall d :: d in items && !Storable(d) ==> exists r :: r in Refusals(items) && r.id == d.item.id
    ensures forall id :: id in AcceptedIds(items) ==> id in Ingested(s, items, now).stored
    ensures forall id :: id in s.stored ==>
              id in Ingested(s, items, now).stored && Ingested(s, items, now).stored[id] == s.stored[id]
  {
    hide Refusal;
    if items != [] {
      var front, d := items[..|items| - 1], items[|items| - 1];
      OneVerdictEach(s, front, now);
      assert items == front + [d];
      BatchStep(s, front, d, now);
      hide AcceptedIds, Refusals, Ingested;
      IngestGrows(Ingested(s, front, now), d, now);
      hide IngestOne;
    }
  }

  lemma IngestGrows(s: Server, d: Delivery, now: Time)
    ensures var t := IngestOne(s, d, now);
            && (forall id :: id in s.stored ==> id in t.stored && t.stored[id] == s.stored[id])
            && (Storable(d) ==> d.item.id in t.stored)
  {
    hide Refusal;
  }

  // -------------------------------------------------------------- exactly once

  /** Arrival lists each stored id once. */
  ghost predicate Consistent(s: Server)
  {
    && (forall i, j :: 0 <= i < j < |s.arrival| ==> s.arrival[i] != s.arrival[j])
    && (forall id :: id in s.arrival <==> id in s.stored)
    && s.ingestedAt.Keys == s.stored.Keys
  }

  lemma IngestKeeps(s: Server, d: Delivery, now: Time)
    requires Consistent(s)
    ensures
      var s' := IngestOne(s, d, now);
      && Consistent(s')
      && s.arrival <= s'.arrival
      && (forall id :: id in s.stored ==> id in s'.stored && s'.stored[id] == s.stored[id]
                                          && s'.ingestedAt[id] == s.ingestedAt[id])
      && (Storable(d) ==> d.item.id in s'.stored)
  {
  }

  /** The first storable delivery of an id in a history, or none. */
  ghost function FirstOf(history: seq<Delivery>, id: string): Option<Event>
  {
    if history == [] then None
    else
      var before := FirstOf(history[..|history| - 1], id);
      var d := history[|history| - 1];
      if before.Some? then before
      else if Storable(d) && d.item.id == id then Some(d.item.payload.event)
      else None
  }

  /** What the server holds is, id by id, the first storable delivery; every later one is absorbed. */
  lemma {:induction false} FirstDeliveryStays(history: seq<Delivery>, now: Time)
    ensures
      var s := Ingested(EMPTY, history, now);
      && Consistent(s)
      && (forall id :: id in s.stored <==> FirstOf(history, id).Some?)
      && (forall id :: id in s.stored ==> s.stored[id] == FirstOf(history, id).value)
      && |s.arrival| + s.redundant + s.rejected == |history|
  {
    if history != [] {
      var before := history[..|history| - 1];
      FirstDeliveryStays(before, now);
      IngestKeeps(Ingested(EMPTY, before, now), history[|history| - 1], now);
    }
  }

  /** An idempotency key names one event: what every producer of deterministic ids keeps to. */
  ghost predicate OneEventPerId(history: seq<Delivery>, event: string -> Event)
  {
    forall d :: d in history && Storable(d) ==> d.item.payload.event == event(d.item.id)
  }

  /** The history holds a storable delivery of the id. */
  ghost predicate Brings(history: seq<Delivery>, id: string)
  {
    exists d :: d in history && Storable(d) && d.item.id == id
  }

  lemma {:induction false} FirstOfIsAny(history: seq<Delivery>, id: string, event: string -> Event)
    requires OneEventPerId(history, event)
    ensures FirstOf(history, id) == if Brings(history, id) then Some(event(id)) else None
  {
    if history != [] {
      FirstOfIsAny(history[..|history| - 1], id, event);
      assert history == history[..|history| - 1] + [history[|history| - 1]];
    }
  }

  /** A consistent server's arrival is its store's ids, each once. */
  lemma ArrivalIsStore(s: Server)
    requires Consistent(s)
    ensures multiset(s.arrival) == multiset(s.stored.Keys)
  {
    forall id ensures multiset(s.arrival)[id] == multiset(s.stored.Keys)[id] {
      CountOnce(s.arrival, id);
      assert id in s.arrival <==> id in s.stored;
    }
  }

  /** With one event per id the store is a function of the ids a history brings. */
  lemma StoreIsWhatIsBrought(history: seq<Delivery>, event: string -> Event, now: Time)
    requires OneEventPerId(history, event)
    ensures
      var s := Ingested(EMPTY, history, now);
      && multiset(s.arrival) == multiset(s.stored.Keys)
      && forall id :: (id in s.stored <==> Brings(history, id)) && (id in s.stored ==> s.stored[id] == event(id))
  {
    var s := Ingested(EMPTY, history, now);
    FirstDeliveryStays(history, now);
    ArrivalIsStore(s);
    forall id ensures (id in s.stored <==> Brings(history, id)) && (id in s.stored ==> s.stored[id] == event(id)) {
      FirstOfIsAny(history, id, event);
    }
  }

  /**
   * Exactly-once effect: two histories that carry the same storable ids, however
   * often each is redelivered and in whatever order, leave the same store, and
   * each id arrives once.
   */
  lemma ExactlyOnce(one: seq<Delivery>, other: seq<Delivery>, event: string -> Event, now: Time, now': Time)
    requires OneEventPerId(one, event) && OneEventPerId(other, event)
    requires forall id :: Brings(one, id) <==> Brings(other, id)
    ensures
      var s, t := Ingested(EMPTY, one, now), Ingested(EMPTY, other, now');
      s.stored == t.stored && multiset(s.arrival) == multiset(t.arrival)
  {
    hide Ingested, OneEventPerId, Brings;
    StoreIsWhatIsBrought(one, event, now);
    StoreIsWhatIsBrought(other, event, now');
    var s, t := Ingested(EMPTY, one, now), Ingested(EMPTY, other, now');
    assert forall id :: id in s.stored <==> id in t.stored;
  }

  lemma {:induction false} CountOnce(ids: seq<string>, id: string)
    requires forall i, j :: 0 <= i < j < |ids| ==> ids[i] != ids[j]
    ensures multiset(ids)[id] == if id in ids then 1 else 0
  {
    if ids != [] {
      CountOnce(ids[1..], id);
      assert ids == [ids[0]] + ids[1..];
    }
  }

  // ------------------------------------------------------------------ sessions

  function OfSession(s: Server, ids: seq<string>, session: string): seq<Event>
    requires forall id :: id in ids ==> id in s.stored
  {
    if ids == [] then []
    else
      var before := OfSession(s, ids[..|ids| - 1], session);
      var e := s.stored[ids[|ids| - 1]];
      if e.sessionId == session then before + [e] else before
  }

  /** Stable insertion: after every event whose number is not larger. */
  function Insert(sorted: seq<Event>, e: Event): seq<Event>
  {
    if sorted == [] then [e]
    else if sorted[|sorted| - 1].seqNo <= e.seqNo then sorted + [e]
    else Insert(sorted[..|sorted| - 1], e) + [sorted[|sorted| - 1]]
  }

  /** sort.SliceStable by sequence number. */
  function StableSort(evs: seq<Event>): seq<Event>
  {
    if evs == [] then [] else Insert(StableSort(evs[..|evs| - 1]), evs[|evs| - 1])
  }

  ghost predicate BySeq(evs: seq<Event>)
  {
    forall i, j :: 0 <= i < j < |evs| ==> evs[i].seqNo <= evs[j].seqNo
  }

  /** The events of one sequence number, in order. */
  ghost function Numbered(evs: seq<Event>, n: nat): seq<Event>
  {
    if evs == [] then []
    else
      var before := Numbered(evs[..|evs| - 1], n);
      if evs[|evs| - 1].seqNo == n then before + [evs[|evs| - 1]] else before
  }

  lemma NumberedAppend(evs: seq<Event>, e: Event, n: nat)
    ensures Numbered(evs + [e], n) == if e.seqNo == n then Numbered(evs, n) + [e] else Numbered(evs, n)
  {
    assert (evs + [e])[..|evs|] == evs;
  }

  lemma {:induction false} InsertPermutes(sorted: seq<Event>, e: Event)
    ensures multiset(Insert(sorted, e)) == multiset(sorted) + multiset{e}
    ensures forall x :: x in Insert(sorted, e) ==> x == e || x in sorted
  {
    if sorted != [] && sorted[|sorted| - 1].seqNo > e.seqNo {
      var front, last := sorted[..|sorted| - 1], sorted[|sorted| - 1];
      assert sorted == front + [last];
      InsertPermutes(front, e);
    }
  }

  lemma {:induction false} InsertSorts(sorted: seq<Event>, e: Event)
    requires BySeq(sorted)
    ensures BySeq(Insert(sorted, e))
  {
    if sorted != [] && sorted[|sorted| - 1].seqNo > e.seqNo {
      var front, last := sorted[..|sorted| - 1], sorted[|sorted| - 1];
      assert sorted == front + [last];
      InsertSorts(front, e);
      InsertPermutes(front, e);
      InsertedBelow(front, e, last);
    }
  }

  lemma {:induction false} InsertIsStable(sorted: seq<Event>, e: Event, n: nat)
    ensures Numbered(Insert(sorted, e), n) == if e.seqNo == n then Numbered(sorted, n) + [e] else Numbered(sorted, n)
  {
    if sorted == [] {
      assert [] + [e] == [e];
      NumberedAppend([], e, n);
    } else if sorted[|sorted| - 1].seqNo <= e.seqNo {
      NumberedAppend(sorted, e, n);
    } else {
      var front, last := sorted[..|sorted| - 1], sorted[|sorted| - 1];
      assert sorted == front + [last];
      InsertIsStable(front, e, n);
      NumberedAppend(Insert(front, e), last, n);
      NumberedAppend(front, last, n);
    }
  }

  lemma InsertedBelow(front: seq<Event>, e: Event, last: Event)
    requires BySeq(front + [last]) && e.seqNo <= last.seqNo
    requires forall x :: x in Insert(front, e) ==> x == e || x in front
    ensures forall i :: 0 <= i < |Insert(front, e)| ==> Insert(front, e)[i].seqNo <= last.seqNo
  {
    var r := Insert(front, e);
    forall i | 0 <= i < |r| ensures r[i].seqNo <= last.seqNo {
      assert r[i] in r;
      if r[i] != e {
        var j :| 0 <= j < |front| && front[j] == r[i];
        assert (front + [last])[j] == r[i] && (front + [last])[|front|] == last;
      }
    }
  }

  /** Sorted by number, a permutation of the input, and stable. */
  lemma {:induction false} StableSortSorts(evs: seq<Event>)
    ensures
      var r := StableSort(evs);
      BySeq(r) && multiset(r) == multiset(evs) && forall n :: Numbered(r, n) == Numbered(evs, n)
  {
    if evs != [] {
      var front := evs[..|evs| - 1];
      StableSortSorts(front);
      InsertSorts(StableSort(front), evs[|evs| - 1]);
      InsertPermutes(StableSort(front), evs[|evs| - 1]);
      forall n ensures Numbered(StableSort(evs), n) == Numbered(evs, n) {
        InsertIsStable(StableSort(front), evs[|evs| - 1], n);
      }
      assert evs == front + [evs[|evs| - 1]];
    }
  }

  lemma NoVerdicts(s: Server, now: Time)
    ensures Ingested(s, [], now) == s && AcceptedIds([]) == [] && Refusals([]) == []
  {
  }

  lemma StorableCarries(it: Item)
    requires Refusal(it) == None
    ensures it.payload.Carries?
  {
  }

  // ------------------------------------------------------------------ the class

  class Ingest {
    var stored: map<string, Event>
    var arrival: seq<string>
    var ingestedAt: map<string, Time>
    var rejected: nat
    var redundant: nat

    function State(): Server
      reads this
    {
      Server(stored, arrival, ingestedAt, rejected, redundant)
    }

    ghost predicate Valid()
      reads this
    {
      Consistent(State())
    }

    constructor ()
      ensures Valid() && State() == EMPTY
    {
      stored, arrival, ingestedAt, rejected, redundant := map[], [], map[], 0, 0;
    }

    /** ingest: the store and the answer are the specification's; nothing stored before changes. */
    method IngestBatch(items: seq<Item>, tooBig: bool, now: Time) returns (resp: Answer)
      requires Valid()
      modifies this
      ensures Valid()
      ensures State() == Ingested(old(State()), Deliveries(items, tooBig), now)
      ensures resp == Answer(AcceptedIds(Deliveries(items, tooBig)), Refusals(Deliveries(items, tooBig)))
      ensures forall id :: id in resp.accepted ==> id in stored
    {
      resp := Answer([], []);
      ghost var all := Deliveries(items, tooBig);
      NoVerdicts(old(State()), now);
      hide Refusal, Consistent, Ingested, AcceptedIds, Refusals;
      var i := 0;
      while i < |items|
        invariant 0 <= i <= |items|
        invariant Valid()
        invariant State() == Ingested(old(State()), all[..i], now)
        invariant resp == Answer(AcceptedIds(all[..i]), Refusals(all[..i]))
      {
        var it := items[i];
        ghost var before := State();
        assert all[..i + 1] == all[..i] + [all[i]] && all[i] == Delivery(it, tooBig);
        BatchStep(old(State()), all[..i], all[i], now);
        IngestKeeps(before, all[i], now);
        if tooBig {
          resp := resp.(rejected := resp.rejected + [Refused(it.id, TOO_BIG)]);
          rejected := rejected + 1;
        } else if Refusal(it).Some? {
          resp := resp.(rejected := resp.rejected + [Refused(it.id, Refusal(it).value)]);
          rejected := rejected + 1;
        } else {
          if it.id in stored {
            redundant := redundant + 1;
          } else {
            StorableCarries(it);
            stored := stored[it.id := it.payload.event];
            arrival := arrival + [it.id];
            ingestedAt := ingestedAt[it.id := now];
          }
          resp := resp.(accepted := resp.accepted + [it.id]);
        }
        assert State() == IngestOne(before, all[i], now);
        i := i + 1;
      }
      assert all[..i] == all;
      OneVerdictEach(old(State()), all, now);
    }

    /** Everything stored, in arrival order, by session. */
    method Grouped() returns (groups: map<string, seq<Event>>)
      requires Valid()
      ensures forall session ::
              OfSession(State(), arrival, session) == if session in groups then groups[session] else []
      ensures forall session :: session in groups ==> groups[session] != []
    {
      groups := map[];
      var i := 0;
      while i < |arrival|
        invariant 0 <= i <= |arrival|
        invariant forall session :: OfSession(State(), arrival[..i], session)
                                    == if session in groups then groups[session] else []
        invariant forall session :: session in groups ==> groups[session] != []
      {
        assert arrival[..i + 1][..i] == arrival[..i];
        var e := stored[arrival[i]];
        var had := if e.sessionId in groups then groups[e.sessionId] else [];
        groups := groups[e.sessionId := had + [e]];
        i := i + 1;
      }
      assert arrival[..i] == arrival;
    }

    /** Sessions: everything stored, grouped by session, each group ordered by sequence number. */
    method Sessions() returns (out: map<string, seq<Event>>)
      requires Valid()
      ensures forall session :: session in out <==> OfSession(State(), arrival, session) != []
      ensures forall session :: session in out ==>
                && BySeq(out[session])
                && multiset(out[session]) == multiset(OfSession(State(), arrival, session))
                && forall n :: Numbered(out[session], n) == Numbered(OfSession(State(), arrival, session), n)
    {
      hide StableSort, BySeq, Numbered, OfSession;
      var groups := Grouped();
      forall session | session in groups
        ensures var r := StableSort(groups[session]);
          BySeq(r) && multiset(r) == multiset(groups[session])
          && forall n :: Numbered(r, n) == Numbered(groups[session], n)
      {
        StableSortSorts(groups[session]);
      }
      out := map session | session in groups :: StableSort(groups[session]);
    }
  }

  function Deliveries(items: seq<Item>, tooBig: bool): (r: seq<Delivery>)
    ensures |r| == |items| && forall i :: 0 <= i < |r| ==> r[i] == Delivery(items[i], tooBig)
  {
    seq(|items|, i requires 0 <= i < |items| => Delivery(items[i], tooBig))
  }
}
