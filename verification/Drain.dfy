/** Delivery: lease a batch, send it, apply the server's verdict item by item. */
module Drain {
  import opened Events
  import opened Names
  import opened Spool
  import Reasons
  import Sums

  datatype Refusal = Refusal(id: string, reason: string)

  datatype Response = Response(accepted: seq<string>, rejected: seq<Refusal>, retryAfter: nat)

  /** What Send came back with: an error acks nothing, whatever the server did. */
  datatype SendResult = Failed(retryAfter: nat) | Answered(response: Response)

  // ---------------------------------------------------------------- one verdict

  predicate IsRejected(rejected: seq<Refusal>, id: string)
  {
    exists i :: 0 <= i < |rejected| && rejected[i].id == id
  }

  /** The reason kept for an id is the last one the response gives. */
  function ReasonFor(rejected: seq<Refusal>, id: string): string
  {
    if rejected == [] then ""
    else if rejected[|rejected| - 1].id == id then rejected[|rejected| - 1].reason
    else ReasonFor(rejected[..|rejected| - 1], id)
  }

  function VerdictOne(s: Store, l: Leased, resp: Response, size: Item -> nat, maxUndecided: nat): Store
  {
    if l.item.id in resp.accepted then Ack(s, l)
    else if IsRejected(resp.rejected, l.item.id) then Reject(s, l, Reasons.Tag(ReasonFor(resp.rejected, l.item.id)))
    else Undecided(s, l, size, maxUndecided)
  }

  function Verdicts(s: Store, batch: seq<Leased>, resp: Response, size: Item -> nat, maxUndecided: nat): Store
    decreases |batch|
  {
    if batch == [] then s
    else Verdicts(VerdictOne(s, batch[0], resp, size, maxUndecided), batch[1..], resp, size, maxUndecided)
  }

  /** The bytes the verdict adds by rewriting an item left undecided. */
  ghost function VerdictGrowth(s: Store, l: Leased, resp: Response, size: Item -> nat, maxUndecided: nat): nat
  {
    if l.item.id in resp.accepted || IsRejected(resp.rejected, l.item.id) then 0
    else UndecidedGrowth(s, l, size, maxUndecided)
  }

  ghost function VerdictsGrowth(s: Store, batch: seq<Leased>, resp: Response, size: Item -> nat, maxUndecided: nat): nat
    decreases |batch|
  {
    if batch == [] then 0
    else VerdictGrowth(s, batch[0], resp, size, maxUndecided)
         + VerdictsGrowth(VerdictOne(s, batch[0], resp, size, maxUndecided), batch[1..], resp, size, maxUndecided)
  }

  /** What a verdict means for one leased item. */
  datatype Fate = Taken | Refused | Waits | GivenUp

  function FateOf(l: Leased, resp: Response, maxUndecided: nat): Fate
  {
    if l.item.id in resp.accepted then Taken
    else if IsRejected(resp.rejected, l.item.id) then Refused
    else if l.item.undecided + 1 >= maxUndecided then GivenUp
    else Waits
  }

  /** How many items of the batch meet a fate. */
  function Met(batch: seq<Leased>, resp: Response, maxUndecided: nat, fate: Fate): nat
  {
    if batch == [] then 0
    else Met(batch[..|batch| - 1], resp, maxUndecided, fate)
         + if FateOf(batch[|batch| - 1], resp, maxUndecided) == fate then 1 else 0
  }

  /** Every item meets exactly one fate. */
  lemma {:induction false} FatesPartition(batch: seq<Leased>, resp: Response, m: nat)
    ensures Met(batch, resp, m, Taken) + Met(batch, resp, m, Refused) + Met(batch, resp, m, Waits)
            + Met(batch, resp, m, GivenUp) == |batch|
  {
    hide FateOf;
    if batch != [] { FatesPartition(batch[..|batch| - 1], resp, m); }
  }

  // ------------------------------------------------------------------ the batch

  const ENVELOPE_BYTES: nat := 512

  function BatchBytes(batch: seq<Leased>, length: Payload -> nat): nat
  {
    if batch == [] then 0
    else BatchBytes(batch[..|batch| - 1], length) + length(batch[|batch| - 1].item.payload) + ENVELOPE_BYTES
  }

  /** How many leading items of a batch fit the byte cap, never fewer than one. */
  function Fits(batch: seq<Leased>, taken: nat, length: Payload -> nat, maxBytes: nat): (k: nat)
    requires taken <= |batch|
    ensures taken <= k <= |batch|
    ensures batch != [] ==> k > 0
    decreases |batch| - taken
  {
    if taken == |batch| then taken
    else if taken > 0 && BatchBytes(batch[..taken + 1], length) > maxBytes then taken
    else Fits(batch, taken + 1, length, maxBytes)
  }

  /** The batch sent is the longest prefix that fits, or the first item alone when even it does not. */
  lemma {:induction false} FitsIsLongest(batch: seq<Leased>, taken: nat, length: Payload -> nat, maxBytes: nat)
    requires taken <= |batch|
    requires taken > 1 ==> BatchBytes(batch[..taken], length) <= maxBytes
    ensures
      var k := Fits(batch, taken, length, maxBytes);
      && (k > 1 ==> BatchBytes(batch[..k], length) <= maxBytes)
      && (k < |batch| ==> BatchBytes(batch[..k + 1], length) > maxBytes)
    decreases |batch| - taken
  {
    if taken < |batch| && !(taken > 0 && BatchBytes(batch[..taken + 1], length) > maxBytes) {
      FitsIsLongest(batch, taken + 1, length, maxBytes);
    }
  }

  /** Enrich may rewrite payloads of the in-memory copies and nothing else. */
  function Enriched(leased: seq<Leased>, enrich: Item -> Payload): (r: seq<Leased>)
    ensures |r| == |leased|
    ensures forall i :: 0 <= i < |r| ==> r[i] == leased[i].(item := leased[i].item.(payload := enrich(leased[i].item)))
  {
    seq(|leased|, i requires 0 <= i < |leased| =>
      leased[i].(item := leased[i].item.(payload := enrich(leased[i].item))))
  }

  // ------------------------------------------------------------------ one cycle

  /** The settings of one drain and of the outbox it drains. */
  datatype Settings = Settings(
    batchSize: nat,
    maxBytes: nat,
    maxUndecided: nat,
    size: Item -> nat,
    length: Payload -> nat)

  function BatchOf(s: Store, enrich: Item -> Payload, o: Settings): seq<Leased>
  {
    var batch := Enriched(Lease(s, o.batchSize).1, enrich);
    batch[..Fits(batch, 0, o.length, o.maxBytes)]
  }

  /** One cycle against a server that answers the batch in hand with the given result. */
  function Cycle(s: Store, enrich: Item -> Payload, answer: SendResult, o: Settings): Store
  {
    match answer
    case Failed(_) => Lease(s, o.batchSize).0
    case Answered(resp) => Verdicts(Lease(s, o.batchSize).0, BatchOf(s, enrich, o), resp, o.size, o.maxUndecided)
  }

  /** The bytes one cycle's rewrites add. */
  ghost function CycleGrowth(s: Store, enrich: Item -> Payload, answer: SendResult, o: Settings): nat
  {
    match answer
    case Failed(_) => 0
    case Answered(resp) =>
      VerdictsGrowth(Lease(s, o.batchSize).0, BatchOf(s, enrich, o), resp, o.size, o.maxUndecided)
  }

  /** The torn files among the names. */
  ghost function TornOf(d: Dir, names: seq<string>): set<string>
  {
    set n | n in names && n in d && d[n].Torn?
  }

  /** The quarantine after a lease: what it had, and the torn files under their tagged names. */
  ghost predicate TornMoved(was: Dir, now: Dir, torn: set<string>)
  {
    && (forall q :: q in was && (forall n :: n in torn ==> MovedName(n, "corrupt") != q) ==>
          q in now && now[q] == was[q])
    && (forall n :: n in torn ==> MovedName(n, "corrupt") in now && now[MovedName(n, "corrupt")].Torn?)
    && (forall q :: q in now && q !in was ==> exists n :: n in torn && MovedName(n, "corrupt") == q)
  }

  lemma TornMovedStep(was: Dir, mid: Dir, now: Dir, name: string, f: File, torn: set<string>)
    requires f.Torn? && mid == was[MovedName(name, "corrupt") := f] && TornMoved(mid, now, torn - {name})
    requires name in torn
    ensures TornMoved(was, now, torn)
  {
    hide MovedName;
    forall n | n in torn ensures MovedName(n, "corrupt") in now && now[MovedName(n, "corrupt")].Torn? {
      var q := MovedName(n, "corrupt");
      if n == name && forall k :: k in torn - {name} ==> MovedName(k, "corrupt") != q { assert q in mid; }
    }
    forall q | q in now && q !in was ensures exists n :: n in torn && MovedName(n, "corrupt") == q {
      if q in mid { assert MovedName(name, "corrupt") == q; }
    }
  }

  /** A lease moves the torn files it meets and touches nothing else. */
  lemma {:induction false} LeaseMovesTheTorn(s: Store, names: seq<string>)
    ensures
      var s' := LeaseNames(s, names).0;
      && s'.parked == s.parked
      && TornMoved(s.quarantine, s'.quarantine, TornOf(s.pending, names))
      && (TornOf(s.pending, names) == {} ==> s' == s)
    decreases |names|
  {
    hide MovedName;
    if names != [] {
      var rest := names[1..];
      assert names == [names[0]] + rest;
      if names[0] in s.pending && s.pending[names[0]].Torn? {
        var s1 := Record(MoveOut(s, Pending, names[0], Quarantine, "corrupt"), "corrupt", 1);
        MoveOutDirs(s, Pending, names[0], Quarantine, "corrupt");
        LeaseMovesTheTorn(s1, rest);
        assert TornOf(s1.pending, rest) == TornOf(s.pending, names) - {names[0]};
        TornMovedStep(s.quarantine, s1.quarantine, LeaseNames(s1, rest).0.quarantine, names[0],
                      s.pending[names[0]], TornOf(s.pending, names));
      } else {
        LeaseMovesTheTorn(s, rest);
        assert TornOf(s.pending, rest) == TornOf(s.pending, names);
      }
    }
  }

  /**
   * A failed send: no readable file moves or changes anywhere, the torn files
   * the lease met are in quarantine, and without one nothing at all is changed.
   */
  lemma FailedSendKeepsItems(s: Store, enrich: Item -> Payload, retryAfter: nat, o: Settings)
    ensures
      var s' := Cycle(s, enrich, Failed(retryAfter), o);
      var torn := TornOf(s.pending, FirstN(Listing(s.pending.Keys), o.batchSize));
      && s'.pending == s.pending - torn && s'.parked == s.parked
      && TornMoved(s.quarantine, s'.quarantine, torn)
      && (s' == s <==> torn == {})
  {
    var names := FirstN(Listing(s.pending.Keys), o.batchSize);
    LeaseMovesTheTorn(s, names);
    LeasePending(s, names);
    hide LeaseNames, Listing;
    var s' := Cycle(s, enrich, Failed(retryAfter), o);
    assert s'.pending == s.pending - TornOf(s.pending, names);
    if n :| n in TornOf(s.pending, names) { assert n in s.pending && n !in s'.pending; }
  }

  // ------------------------------------------------------------ no starvation

  /** The silent deliveries a pending file has left before it leaves the queue. */
  function Patience(f: File, maxUndecided: nat): (p: nat)
    ensures p >= 1
  {
    match f
    case Torn(_) => 1
    case Readable(it, _) => if it.undecided + 1 >= maxUndecided then 1 else maxUndecided - it.undecided
  }

  ghost function Patiences(d: Dir, maxUndecided: nat): map<string, nat>
  {
    map n | n in d :: Patience(d[n], maxUndecided)
  }

  ghost function Work(d: Dir, maxUndecided: nat): nat
  {
    Sums.Sum(Patiences(d, maxUndecided))
  }

  lemma WorkRemove(d: Dir, name: string, m: nat)
    requires name in d
    ensures Work(d - {name}, m) + Patience(d[name], m) == Work(d, m)
  {
    Sums.SumRemove(Patiences(d, m), name);
    assert Patiences(d - {name}, m) == Patiences(d, m) - {name};
  }

  lemma WorkUpdate(d: Dir, name: string, f: File, m: nat)
    requires name in d
    ensures Work(d[name := f], m) + Patience(d[name], m) == Work(d, m) + Patience(f, m)
  {
    Sums.SumUpdate(Patiences(d, m), name, Patience(f, m));
    assert Patiences(d[name := f], m) == Patiences(d, m)[name := Patience(f, m)];
  }

  lemma NoWorkMeansEmpty(d: Dir, m: nat)
    ensures Work(d, m) == 0 <==> d == map[]
  {
    if d != map[] {
      var n :| n in d;
      WorkRemove(d, n, m);
    } else {
      assert Patiences(d, m) == map[];
    }
  }

  /** The file a lease names is still there, with the undecided count it was leased with. */
  ghost predicate Current(s: Store, l: Leased)
  {
    && l.place == Pending && l.name in s.pending
    && s.pending[l.name].Readable? && s.pending[l.name].item.undecided == l.item.undecided
  }

  /** A verdict takes the leased file out of pending, or counts one more silent delivery on it. */
  lemma VerdictPending(s: Store, l: Leased, resp: Response, size: Item -> nat, m: nat)
    requires Current(s, l)
    ensures
      var s' := VerdictOne(s, l, resp, size, m);
      var counted := l.item.(undecided := l.item.undecided + 1);
      || s'.pending == s.pending - {l.name}
      || (l.item.undecided + 1 < m && s'.pending == s.pending[l.name := Readable(counted, size(counted))])
  {
    if l.item.id !in resp.accepted {
      if IsRejected(resp.rejected, l.item.id) {
        var tag := Reasons.Tag(ReasonFor(resp.rejected, l.item.id));
        MoveOutDirs(Record(s, "rejected:" + tag, 1), Pending, l.name, Quarantine, "rejected-" + tag);
      } else if l.item.undecided + 1 >= m {
        MoveOutDirs(Record(s, "parked", 1), Pending, l.name, Parked, "");
      }
    }
  }

  /** Any verdict at all on a current lease uses up work, and touches no other pending file. */
  lemma VerdictUsesWork(s: Store, l: Leased, resp: Response, size: Item -> nat, m: nat)
    requires Current(s, l)
    ensures
      var s' := VerdictOne(s, l, resp, size, m);
      && Work(s'.pending, m) < Work(s.pending, m)
      && s'.pending - {l.name} == s.pending - {l.name}
  {
    VerdictPending(s, l, resp, size, m);
    WorkRemove(s.pending, l.name, m);
    var counted := l.item.(undecided := l.item.undecided + 1);
    WorkUpdate(s.pending, l.name, Readable(counted, size(counted)), m);
  }

  ghost predicate DistinctNames(batch: seq<Leased>)
  {
    forall i, j :: 0 <= i < j < |batch| ==> batch[i].name != batch[j].name
  }

  lemma {:induction false} VerdictsUseWork(s: Store, batch: seq<Leased>, resp: Response, size: Item -> nat, m: nat)
    requires DistinctNames(batch) && forall l :: l in batch ==> Current(s, l)
    ensures Work(Verdicts(s, batch, resp, size, m).pending, m) + |batch| <= Work(s.pending, m)
    decreases |batch|
  {
    if batch != [] {
      var s' := VerdictOne(s, batch[0], resp, size, m);
      VerdictUsesWork(s, batch[0], resp, size, m);
      forall l | l in batch[1..] ensures Current(s', l) {
        var i :| 1 <= i < |batch| && batch[i] == l;
        assert batch[0].name != l.name && Current(s, l);
        assert l.name in s.pending - {batch[0].name};
        assert (s'.pending - {batch[0].name})[l.name] == (s.pending - {batch[0].name})[l.name];
      }
      VerdictsUseWork(s', batch[1..], resp, size, m);
    }
  }

  /** Leasing uses up the work of the torn files it meets. */
  lemma {:induction false} LeaseUsesWork(s: Store, names: seq<string>, m: nat)
    requires Sorted(names) && forall n :: n in names ==> n in s.pending
    ensures Work(LeaseNames(s, names).0.pending, m) + |names| == Work(s.pending, m) + |LeaseNames(s, names).1|
    decreases |names|
  {
    if names != [] {
      SortedNoRepeats(names);
      if s.pending[names[0]].Torn? {
        WorkRemove(s.pending, names[0], m);
        var s1 := Record(MoveOut(s, Pending, names[0], Quarantine, "corrupt"), "corrupt", 1);
        MoveOutDirs(s, Pending, names[0], Quarantine, "corrupt");
        assert s1.pending == s.pending - {names[0]};
        LeaseUsesWork(s1, names[1..], m);
      } else {
        LeaseUsesWork(s, names[1..], m);
      }
    }
  }

  /** The leases handed out are current and of distinct files. */
  lemma {:induction false} LeasesAreCurrent(s: Store, names: seq<string>)
    requires Sorted(names)
    ensures
      var (s', leased) := LeaseNames(s, names);
      DistinctNames(leased) && (forall l :: l in leased ==> Current(s', l))
    decreases |names|
  {
    LeasePending(s, names);
    if names != [] {
      SortedNoRepeats(names);
      var torn := names[0] in s.pending && s.pending[names[0]].Torn?;
      LeasesAreCurrent(if torn then Record(MoveOut(s, Pending, names[0], Quarantine, "corrupt"), "corrupt", 1) else s,
                       names[1..]);
      var rest := LeaseNames(s, names[1..]).1;
      forall j | 0 <= j < |rest| ensures rest[j].name != names[0] { assert rest[j] in rest; }
    }
  }

  lemma BatchIsCurrent(leased: seq<Leased>, s: Store, enrich: Item -> Payload, k: nat)
    requires DistinctNames(leased) && (forall l :: l in leased ==> Current(s, l)) && k <= |leased|
    ensures
      var batch := Enriched(leased, enrich)[..k];
      DistinctNames(batch) && forall l :: l in batch ==> Current(s, l)
  {
    var all := Enriched(leased, enrich);
    forall l | l in all[..k] ensures Current(s, l) {
      var i :| 0 <= i < k && all[i] == l;
      assert leased[i] in leased;
    }
  }

  /** The names one lease looks at: the oldest ones, at least one unless the queue is empty. */
  lemma LeaseLooksAt(s: Store, n: nat)
    requires n > 0 && s.pending != map[]
    ensures
      var names := FirstN(Listing(s.pending.Keys), n);
      names != [] && Sorted(names) && forall x :: x in names ==> x in s.pending
  {
    ListingSorted(s.pending.Keys);
    var x :| x in s.pending;
    assert x in Listing(s.pending.Keys);
  }

  /** Every answered cycle over a queue that is not empty uses up work, whatever the answer. */
  lemma CycleUsesWork(s: Store, enrich: Item -> Payload, resp: Response, o: Settings)
    requires o.batchSize > 0 && s.pending != map[]
    ensures Work(Cycle(s, enrich, Answered(resp), o).pending, o.maxUndecided) < Work(s.pending, o.maxUndecided)
  {
    var names := FirstN(Listing(s.pending.Keys), o.batchSize);
    LeaseLooksAt(s, o.batchSize);
    LeaseUsesWork(s, names, o.maxUndecided);
    LeaseAtMost(s, names);
    LeasesAreCurrent(s, names);
    var (s', leased) := LeaseNames(s, names);
    assert (s', leased) == Lease(s, o.batchSize);
    var k := Fits(Enriched(leased, enrich), 0, o.length, o.maxBytes);
    BatchIsCurrent(leased, s', enrich, k);
    var batch := BatchOf(s, enrich, o);
    VerdictsUseWork(s', batch, resp, o.size, o.maxUndecided);
  }

  /** What one cycle of a run meets: how the batch is enriched, and the server's verdict. */
  datatype Round = Round(enrich: Item -> Payload, response: Response)

  function Rounds(s: Store, rounds: seq<Round>, o: Settings): Store
    decreases |rounds|
  {
    if rounds == [] then s
    else Rounds(Cycle(s, rounds[0].enrich, Answered(rounds[0].response), o), rounds[1..], o)
  }

  lemma {:induction false} EmptyStaysEmpty(s: Store, rounds: seq<Round>, o: Settings)
    requires s.pending == map[]
    ensures Rounds(s, rounds, o).pending == map[]
    decreases |rounds|
  {
    if rounds != [] {
      assert Listing(s.pending.Keys) == [];
      assert Cycle(s, rounds[0].enrich, Answered(rounds[0].response), o) == s;
      EmptyStaysEmpty(s, rounds[1..], o);
    }
  }

  /**
   * The queue drains without starvation: with no new captures, any verdicts at
   * all empty it within as many cycles as the items have patience together.
   */
  lemma {:induction false} QueueDrains(s: Store, rounds: seq<Round>, o: Settings)
    requires o.batchSize > 0 && |rounds| >= Work(s.pending, o.maxUndecided)
    ensures Rounds(s, rounds, o).pending == map[]
    decreases |rounds|
  {
    NoWorkMeansEmpty(s.pending, o.maxUndecided);
    if s.pending == map[] {
      EmptyStaysEmpty(s, rounds, o);
    } else {
      CycleUsesWork(s, rounds[0].enrich, rounds[0].response, o);
      QueueDrains(Cycle(s, rounds[0].enrich, Answered(rounds[0].response), o), rounds[1..], o);
    }
  }

  // ------------------------------------------------------------------ the class

  lemma VerdictsEnd(s: Store, resp: Response, size: Item -> nat, m: nat)
    ensures Verdicts(s, [], resp, size, m) == s && VerdictsGrowth(s, [], resp, size, m) == 0
  {
  }

  lemma VerdictsStep(s: Store, batch: seq<Leased>, i: nat, resp: Response, size: Item -> nat, m: nat)
    requires i < |batch|
    ensures
      var l, s' := batch[i], VerdictOne(s, batch[i], resp, size, m);
      && Verdicts(s, batch[i..], resp, size, m) == Verdicts(s', batch[i + 1..], resp, size, m)
      && VerdictsGrowth(s, batch[i..], resp, size, m)
         == VerdictGrowth(s, l, resp, size, m) + VerdictsGrowth(s', batch[i + 1..], resp, size, m)
      && s' == (match FateOf(l, resp, m)
                case Taken => Ack(s, l)
                case Refused => Reject(s, l, Reasons.Tag(ReasonFor(resp.rejected, l.item.id)))
                case Waits => Undecided(s, l, size, m)
                case GivenUp => Undecided(s, l, size, m))
      && VerdictGrowth(s, l, resp, size, m)
         == match FateOf(l, resp, m)
            case Taken => 0
            case Refused => 0
            case Waits => UndecidedGrowth(s, l, size, m)
            case GivenUp => UndecidedGrowth(s, l, size, m)
  {
    assert batch[i..][0] == batch[i] && batch[i..][1..] == batch[i + 1..];
    hide Ack, Reject, Undecided, UndecidedGrowth;
  }

  /** Where the context was found cancelled, if it was. */
  datatype Cancel = Never | BeforeLease | BeforeSend | DuringSend

  datatype Outcome = Delivered | Idle | TransportError | Cancelled

  /** The cumulative counters of one drain. */
  datatype Stats = Stats(cycles: nat, sent: nat, accepted: nat, rejected: nat, undecided: nat, parked: nat)
  {
    /** The counters after a batch met its verdict. */
    function Counting(batch: seq<Leased>, resp: Response, m: nat): Stats
    {
      this.(accepted := accepted + Met(batch, resp, m, Taken),
            rejected := rejected + Met(batch, resp, m, Refused),
            undecided := undecided + Met(batch, resp, m, Waits) + Met(batch, resp, m, GivenUp),
            parked := parked + Met(batch, resp, m, GivenUp))
    }
  }

  class Drainer {
    const box: Outbox
    const batchSize: nat
    const maxBytes: nat
    const length: Payload -> nat

    var stats: Stats
    /** Consecutive transport failures. */
    var attempt: nat
    var retryAfter: nat
    var batchFull: bool

    constructor (box: Outbox, batchSize: nat, maxBytes: nat, length: Payload -> nat)
      ensures this.box == box && this.batchSize == batchSize && this.maxBytes == maxBytes && this.length == length
      ensures stats == Stats(0, 0, 0, 0, 0, 0) && attempt == 0 && retryAfter == 0 && !batchFull
    {
      this.box, this.batchSize, this.maxBytes, this.length := box, batchSize, maxBytes, length;
      stats, attempt, retryAfter, batchFull := Stats(0, 0, 0, 0, 0, 0), 0, 0, false;
    }

    ghost function Options(): Settings
      reads box
    {
      Settings(batchSize, maxBytes, box.maxUndecided, box.size, length)
    }

    /** limitBytes: the longest prefix that fits, and never without the first item. */
    method LimitBytes(batch: seq<Leased>) returns (out: seq<Leased>)
      ensures out == batch[..Fits(batch, 0, length, maxBytes)]
      ensures out <= batch && (batch != [] ==> out != [])
      ensures |out| > 1 ==> BatchBytes(out, length) <= maxBytes
      ensures |out| < |batch| ==> BatchBytes(batch[..|out| + 1], length) > maxBytes
    {
      FitsIsLongest(batch, 0, length, maxBytes);
      var total, i := 0, 0;
      while i < |batch|
        invariant 0 <= i <= |batch|
        invariant total == BatchBytes(batch[..i], length)
        invariant Fits(batch, 0, length, maxBytes) == Fits(batch, i, length, maxBytes)
      {
        var n := length(batch[i].item.payload) + ENVELOPE_BYTES;
        assert batch[..i + 1][..i] == batch[..i];
        if i > 0 && total + n > maxBytes { return batch[..i]; }
        total := total + n;
        i := i + 1;
      }
      return batch[..i];
    }

    /** applyVerdict: each item of the batch is acked, quarantined or left undecided, exactly one of them. */
    method ApplyVerdict(batch: seq<Leased>, resp: Response)
      requires box.Valid() && forall l :: l in batch ==> l.place == Pending
      modifies this`stats, box
      ensures box.Valid()
      ensures box.Contents() == Verdicts(old(box.Contents()), batch, resp, box.size, box.maxUndecided)
      ensures box.growth
              == old(box.growth) + VerdictsGrowth(old(box.Contents()), batch, resp, box.size, box.maxUndecided)
      ensures stats == old(stats).Counting(batch, resp, box.maxUndecided)
    {
      hide Verdicts, VerdictsGrowth, VerdictOne, VerdictGrowth;
      VerdictsEnd(box.Contents(), resp, box.size, box.maxUndecided);
      var nAcc, nRej, nUnd, nPark := 0, 0, 0, 0;
      var i := 0;
      assert batch[0..] == batch;
      while i < |batch|
        invariant 0 <= i <= |batch|
        invariant box.Valid()
        invariant Verdicts(old(box.Contents()), batch, resp, box.size, box.maxUndecided)
                  == Verdicts(box.Contents(), batch[i..], resp, box.size, box.maxUndecided)
        invariant old(box.growth) + VerdictsGrowth(old(box.Contents()), batch, resp, box.size, box.maxUndecided)
                  == box.growth + VerdictsGrowth(box.Contents(), batch[i..], resp, box.size, box.maxUndecided)
        invariant stats.(accepted := stats.accepted + nAcc, rejected := stats.rejected + nRej,
                         undecided := stats.undecided + nUnd, parked := stats.parked + nPark)
                  == old(stats).Counting(batch[..i], resp, box.maxUndecided)
        invariant stats == old(stats)
      {
        var l := batch[i];
        assert batch[..i + 1][..i] == batch[..i];
        VerdictsStep(box.Contents(), batch, i, resp, box.size, box.maxUndecided);
        if l.item.id in resp.accepted {
          box.AckItem(l);
          nAcc := nAcc + 1;
        } else if IsRejected(resp.rejected, l.item.id) {
          var tag := Reasons.ReasonTag(ReasonFor(resp.rejected, l.item.id));
          box.QuarantineItem(l, tag);
          nRej := nRej + 1;
        } else {
          var wasParked := box.UndecidedItem(l);
          nUnd := nUnd + 1;
          if wasParked { nPark := nPark + 1; }
        }
        i := i + 1;
      }
      VerdictsEnd(box.Contents(), resp, box.size, box.maxUndecided);
      assert batch[i..] == [] && batch[..i] == batch;
      stats := Stats(stats.cycles, stats.sent, stats.accepted + nAcc, stats.rejected + nRej,
                     stats.undecided + nUnd, stats.parked + nPark);
    }

    /** The send and what follows it; the verdict is applied even to a cancelled context. */
    method Transmit(batch: seq<Leased>, cancelled: bool, send: seq<Leased> -> SendResult) returns (outcome: Outcome)
      requires box.Valid() && batch != [] && forall l :: l in batch ==> l.place == Pending
      modifies this, box
      ensures box.Valid()
      ensures match send(batch)
              case Failed(after) =>
                && box.Contents() == old(box.Contents()) && box.growth == old(box.growth)
                && stats == old(stats).(sent := old(stats).sent + |batch|)
                && (cancelled ==> outcome == Cancelled && attempt == old(attempt))
                && (!cancelled ==> outcome == TransportError && attempt == old(attempt) + 1 && retryAfter == after)
              case Answered(resp) =>
                && box.Contents() == Verdicts(old(box.Contents()), batch, resp, box.size, box.maxUndecided)
                && box.growth
                   == old(box.growth) + VerdictsGrowth(old(box.Contents()), batch, resp, box.size, box.maxUndecided)
                && stats == old(stats).(sent := old(stats).sent + |batch|).Counting(batch, resp, box.maxUndecided)
                && outcome == (if cancelled then Cancelled else Delivered)
                && attempt == 0 && retryAfter == resp.retryAfter && batchFull == (|batch| == batchSize)
    {
      stats := stats.(sent := stats.sent + |batch|);
      match send(batch) {
        case Failed(after) =>
          if cancelled { return Cancelled; }
          retryAfter, attempt := after, attempt + 1;
          return TransportError;
        case Answered(resp) =>
          ApplyVerdict(batch, resp);
          retryAfter, batchFull, attempt := resp.retryAfter, |batch| == batchSize, 0;
          return if cancelled then Cancelled else Delivered;
      }
    }

    /** RunOnce: one cycle; the outbox ends exactly as the answer, or the cancellation, calls for. */
    method RunOnce(cancel: Cancel, enrich: Item -> Payload, send: seq<Leased> -> SendResult) returns (outcome: Outcome)
      requires box.Valid()
      modifies this, box
      ensures box.Valid()
      ensures outcome == Idle ==> cancel != BeforeLease && BatchOf(old(box.Contents()), enrich, Options()) == []
      ensures cancel == BeforeLease ==>
                outcome == Cancelled && box.Contents() == old(box.Contents()) && box.growth == old(box.growth)
      ensures cancel == BeforeSend || outcome == Idle ==>
                box.Contents() == Lease(old(box.Contents()), batchSize).0 && box.growth == old(box.growth)
      ensures cancel in {Never, DuringSend} && outcome != Idle ==>
                && BatchOf(old(box.Contents()), enrich, Options()) != []
                && box.Contents()
                   == Cycle(old(box.Contents()), enrich, send(BatchOf(old(box.Contents()), enrich, Options())),
                            Options())
                && box.growth
                   == old(box.growth)
                      + CycleGrowth(old(box.Contents()), enrich, send(BatchOf(old(box.Contents()), enrich, Options())),
                                    Options())
    {
      if cancel == BeforeLease { return Cancelled; }
      stats := stats.(cycles := stats.cycles + 1);
      batchFull := false;
      var leased := box.LeaseBatch(batchSize);
      if leased == [] { return Idle; }
      var all := Enriched(leased, enrich);
      var batch := LimitBytes(all);
      if cancel == BeforeSend { return Cancelled; }
      forall l | l in batch ensures l.place == Pending {
        var i :| 0 <= i < |batch| && all[i] == l;
        assert leased[i] in leased;
      }
      outcome := Transmit(batch, cancel == DuringSend, send);
    }
  }
}
