/**
 * The delivery protocol: captures, any number of drains, redrives and replays
 * over one outbox and one server, interleaved step by step. Leases of any age
 * may be acted on, responses may be lost, and the cached byte total may drift.
 */
module Delivery {
  import opened Events
  import opened Names
  import opened Spool
  import D = Drain
  import R = Receiver
  import Reasons

  datatype Config = Config(maxBytes: nat, maxUndecided: nat, maxAttempts: nat, size: Item -> nat)

  datatype System = System(
    store: Store,
    server: R.Server,
    /** Every id whose capture succeeded. */
    added: set<string>,
    /** Every id the cap evicted. */
    evicted: set<string>,
    /** What the running processes have read and may still act on. */
    leases: set<Leased>,
    /** The ids some process has heard the server accept. */
    heard: set<string>,
    /** Files a redrive has published and not yet unlinked. */
    midway: set<(Place, string)>)

  const INIT := System(Store(map[], map[], map[], 0, false, map[]), R.EMPTY, {}, {}, {}, {}, {})

  datatype Step =
    | Capture(item: Item, ms: nat, diskOk: bool)
    | TakeLease(n: int)
    | ReplayLease(name: string)
    | Enrich(lease: Leased, payload: Payload)
    | Send(batch: seq<Leased>, tooBig: bool, answered: bool, now: Time)
    | AckOne(lease: Leased)
    | RejectOne(lease: Leased, tag: string)
    | UndecidedOne(lease: Leased)
    | FailOne(lease: Leased)
    | Publish(place: Place, name: string)
    | Unlink(place: Place, name: string)
    | MeasureBytes
    | CacheDrift(bytes: int, measured: bool)
    | Crash

  predicate Enabled(s: System, step: Step)
  {
    match step
    case Capture(it, _, _) => '.' !in it.id
    case TakeLease(_) => true
    case ReplayLease(name) => name in s.store.quarantine && s.store.quarantine[name].Readable?
    case Enrich(l, _) => l in s.leases
    case Send(batch, _, _, _) => forall l :: l in batch ==> l in s.leases
    case AckOne(l) => l in s.leases && l.item.id in s.heard
    case RejectOne(l, _) => l in s.leases && l.place == Pending
    case UndecidedOne(l) => l in s.leases && l.place == Pending
    case FailOne(l) => l in s.leases && l.place == Pending
    case Publish(p, n) => p != Pending && n in s.store.At(p) && s.store.At(p)[n].Readable?
    case Unlink(p, n) => (p, n) in s.midway
    case MeasureBytes => true
    case CacheDrift(_, _) => true
    case Crash => true
  }

  ghost function IdsOf(d: Dir, names: seq<string>): set<string>
  {
    set n | n in names && n in d && d[n].Readable? :: d[n].item.id
  }

  function ItemsOf(batch: seq<Leased>): (r: seq<Item>)
    ensures |r| == |batch|
  {
    seq(|batch|, i requires 0 <= i < |batch| => batch[i].item)
  }

  ghost function After(c: Config, s: System, step: Step): System
    requires Enabled(s, step)
  {
    match step
    case Capture(it, ms, diskOk) =>
      var r := Add(s.store, it, ms, c.size, c.maxBytes, diskOk);
      s.(store := r.store, evicted := s.evicted + IdsOf(s.store.pending, r.evicted),
         added := if r.admitted then s.added + {it.id} else s.added)
    case TakeLease(n) =>
      var (store, leased) := Lease(s.store, n);
      s.(store := store, leases := s.leases + (set l | l in leased))
    case ReplayLease(name) => s.(leases := s.leases + {Leased(Quarantine, name, s.store.quarantine[name].item)})
    case Enrich(l, payload) => s.(leases := s.leases + {l.(item := l.item.(payload := payload))})
    case Send(batch, tooBig, answered, now) =>
      var sent := R.Deliveries(ItemsOf(batch), tooBig);
      s.(server := R.Ingested(s.server, sent, now),
         heard := if answered then s.heard + (set id | id in R.AcceptedIds(sent)) else s.heard)
    case AckOne(l) => s.(store := Ack(s.store, l))
    case RejectOne(l, tag) => s.(store := Reject(s.store, l, tag))
    case UndecidedOne(l) => s.(store := Undecided(s.store, l, c.size, c.maxUndecided))
    case FailOne(l) => s.(store := Fail(s.store, l, c.size, c.maxAttempts))
    case Publish(p, n) => s.(store := RedrivePublish(s.store, p, n, c.size), midway := s.midway + {(p, n)})
    case Unlink(p, n) => s.(store := RedriveRemove(s.store, p, n), midway := s.midway - {(p, n)})
    case MeasureBytes => s.(store := Measure(s.store))
    case CacheDrift(bytes, measured) => s.(store := s.store.(pendingBytes := bytes, pendingMeasured := measured))
    case Crash => s.(leases := {}, heard := {}, midway := {})
  }

  /** Where a step moves a pending file to, if it moves one out. */
  function Destination(c: Config, s: System, step: Step): Option<(Place, string)>
  {
    match step
    case RejectOne(l, tag) => Some((Quarantine, MovedName(l.name, "rejected-" + tag)))
    case UndecidedOne(l) =>
      if l.item.undecided + 1 >= c.maxUndecided then Some((Parked, MovedName(l.name, ""))) else None
    case FailOne(l) =>
      if l.item.attempts + 1 >= c.maxAttempts then Some((Quarantine, MovedName(l.name, "max_attempts"))) else None
    case _ => None
  }

  /** The step moves a file onto a name of that id which a redrive is about to unlink. */
  ghost predicate Disturbs(c: Config, s: System, step: Step, id: string)
  {
    && (step.RejectOne? || step.UndecidedOne? || step.FailOne?) && step.lease.name in s.store.pending
    && Destination(c, s, step).Some? && Destination(c, s, step).value in s.midway
    && IdOf(Destination(c, s, step).value.1) == id
  }

  // ------------------------------------------------------------- the invariant

  /** The file of that name holds the item of that id. */
  ghost predicate Holds(st: Store, p: Place, n: string, id: string)
  {
    n in st.At(p) && st.At(p)[n].Readable? && st.At(p)[n].item.id == id
  }

  ghost predicate Accounted(s: System, id: string)
  {
    || id in s.server.stored
    || id in s.evicted
    || exists p, n :: Holds(s.store, p, n, id)
  }

  /** Accounted for without the files a redrive is about to unlink. */
  ghost predicate Safe(s: System, id: string)
  {
    || id in s.server.stored
    || id in s.evicted
    || exists p, n :: Holds(s.store, p, n, id) && (p, n) !in s.midway
  }

  /** Every file parses and its name spells its id. */
  ghost predicate Named(d: Dir)
  {
    forall n :: n in d ==> d[n].Readable? && d[n].item.id == IdOf(n)
  }

  ghost predicate Tidy(s: System)
  {
    && Named(s.store.pending) && Named(s.store.quarantine) && Named(s.store.parked)
    && (forall n :: n in s.store.pending ==> BaseName(n) == n)
    && (forall l :: l in s.leases ==> l.item.id == IdOf(l.name) && (l.place == Pending ==> BaseName(l.name) == l.name))
    && (forall m :: m in s.midway ==> m.0 != Pending)
    && s.heard <= s.server.stored.Keys
  }

  lemma InitHolds()
    ensures Tidy(INIT)
  {
  }

  ghost predicate SameDirs(a: Store, b: Store)
  {
    a.pending == b.pending && a.quarantine == b.quarantine && a.parked == b.parked
  }

  // ------------------------------------------------ what each kind of change keeps

  /** A holder that counts: it is not about to be unlinked. */
  ghost predicate Counts(s: System, p: Place, n: string, id: string)
  {
    Holds(s.store, p, n, id) && (p, n) !in s.midway
  }

  /** The new state is tidy, and the id is as safe as it was. */
  ghost predicate Keeps(s: System, s': System, id: string)
  {
    Tidy(s') && (Safe(s, id) ==> Safe(s', id))
  }

  /** What keeps an id safe: the server, the eviction record, or a file that counts. */
  lemma HolderOf(s: System, id: string) returns (p: Place, n: string)
    requires Safe(s, id) && id !in s.server.stored && id !in s.evicted
    ensures Counts(s, p, n, id)
  {
    p, n :| Holds(s.store, p, n, id) && (p, n) !in s.midway;
  }

  lemma CountingIsSafe(s: System, p: Place, n: string, id: string)
    requires Counts(s, p, n, id)
    ensures Safe(s, id)
  {
  }

  lemma NamedAt(s: System, p: Place)
    requires Tidy(s)
    ensures Named(s.store.At(p))
  {
  }

  lemma PutSafe(s: System, s': System, name: string, it: Item, bytes: nat, id: string)
    requires Tidy(s) && it.id == IdOf(name) && Safe(s, id)
    requires SameDirs(s'.store, s.store.(pending := s.store.pending[name := Readable(it, bytes)]))
    requires s' == s.(store := s'.store)
    ensures Safe(s', id)
  {
    hide IdOf, BaseName, MovedName, FileName;
    if id !in s.server.stored && id !in s.evicted {
      var p, n := HolderOf(s, id);
      if p == Pending && n == name { NamedAt(s, p); }
      CountingIsSafe(s', p, n, id);
    }
  }

  /** Writing a named item into pending keeps everything safe, that item included. */
  lemma PutKeeps(s: System, s': System, name: string, it: Item, bytes: nat, id: string)
    requires Tidy(s) && it.id == IdOf(name) && BaseName(name) == name
    requires SameDirs(s'.store, s.store.(pending := s.store.pending[name := Readable(it, bytes)]))
    requires s' == s.(store := s'.store)
    ensures Keeps(s, s', id) && Safe(s', it.id)
  {
    hide IdOf, BaseName, MovedName, FileName;
    CountingIsSafe(s', Pending, name, it.id);
    if Safe(s, id) { PutSafe(s, s', name, it, bytes, id); }
  }

  /** Taking files away is safe when each is stored, recorded as evicted, or already discounted. */
  ghost predicate IsRemoval(s: System, s': System, place: Place, names: set<string>)
  {
    && SameDirs(s'.store, s.store.With(place, s.store.At(place) - names))
    && s'.leases == s.leases && s'.heard == s.heard && s'.server == s.server
    && s.evicted <= s'.evicted && s'.midway <= s.midway
    && forall n :: n in names && n in s.store.At(place) ==>
         (place, n) in s.midway || IdOf(n) in s.server.stored || IdOf(n) in s'.evicted
  }

  lemma RemoveKeeps(s: System, s': System, place: Place, names: set<string>, id: string)
    requires Tidy(s) && IsRemoval(s, s', place, names)
    ensures Keeps(s, s', id)
  {
    hide IdOf, BaseName, MovedName, FileName;
    assert Tidy(s');
    if Safe(s, id) && id !in s.server.stored && id !in s.evicted {
      var p, n := HolderOf(s, id);
      NamedAt(s, p);
      if !(p == place && n in names) { CountingIsSafe(s', p, n, id); }
    }
  }

  ghost predicate IsMove(s: System, s': System, name: string, to: Place, tag: string)
  {
    && to != Pending && name in s.store.pending
    && SameDirs(s'.store, s.store.(pending := s.store.pending - {name})
                           .With(to, s.store.At(to)[MovedName(name, tag) := s.store.pending[name]]))
    && s' == s.(store := s'.store)
  }

  lemma MoveSafe(s: System, s': System, name: string, to: Place, tag: string, id: string)
    requires Tidy(s) && IsMove(s, s', name, to, tag) && Safe(s, id)
    requires (to, MovedName(name, tag)) in s.midway ==> IdOf(name) != id
    ensures Safe(s', id)
  {
    hide IdOf, BaseName, MovedName, FileName;
    MoveKeepsBaseName(name, tag);
    var moved := MovedName(name, tag);
    if id !in s.server.stored && id !in s.evicted {
      var p, n := HolderOf(s, id);
      NamedAt(s, p);
      NamedAt(s, Pending);
      if (p == Pending && n == name) || (p == to && n == moved) {
        CountingIsSafe(s', to, moved, id);
      } else {
        CountingIsSafe(s', p, n, id);
      }
    }
  }

  lemma MoveTidy(s: System, s': System, name: string, to: Place, tag: string)
    requires Tidy(s) && IsMove(s, s', name, to, tag)
    ensures Tidy(s')
  {
    hide IdOf, BaseName, MovedName, FileName;
    MoveKeepsBaseName(name, tag);
  }

  /** Moving a file out of pending keeps an id safe unless it lands on a name of that id about to be unlinked. */
  lemma MoveKeeps(s: System, s': System, name: string, to: Place, tag: string, id: string)
    requires Tidy(s) && to != Pending
    requires SameDirs(s'.store, MoveOut(s.store, Pending, name, to, tag))
    requires s' == s.(store := s'.store)
    ensures Tidy(s')
    ensures !(name in s.store.pending && (to, MovedName(name, tag)) in s.midway && IdOf(name) == id) ==>
              Keeps(s, s', id)
  {
    hide IdOf, BaseName, MovedName, FileName;
    if name in s.store.pending {
      MoveTidy(s, s', name, to, tag);
      if Safe(s, id) && !((to, MovedName(name, tag)) in s.midway && IdOf(name) == id) {
        MoveSafe(s, s', name, to, tag, id);
      }
    } else {
      KeptKeeps(s, s', id);
    }
  }

  /** Nothing moved, and nothing known was forgotten. */
  ghost predicate IsKept(s: System, s': System)
  {
    && SameDirs(s.store, s'.store) && s'.midway <= s.midway
    && s.server.stored.Keys <= s'.server.stored.Keys && s.evicted <= s'.evicted
  }

  lemma KeptKeeps(s: System, s': System, id: string)
    requires IsKept(s, s') && (Tidy(s) ==> Tidy(s'))
    ensures Tidy(s) ==> Keeps(s, s', id)
  {
    hide IdOf, BaseName, MovedName, FileName;
    if Safe(s, id) && id !in s.server.stored && id !in s.evicted {
      var p, n := HolderOf(s, id);
      CountingIsSafe(s', p, n, id);
    }
  }

  // ------------------------------------------------------------- every step

  /** The cap takes away exactly the files it evicts. */
  lemma CapDirs(st: Store, incoming: nat, max: nat)
    ensures
      var cap := EnforceCap(st, incoming, max);
      SameDirs(cap.store, st.With(Pending, st.pending - (set n | n in cap.evicted)))
  {
    hide Listing, EvictCount, Total, Counted, CacheTrusted;
    var cap := EnforceCap(st, incoming, max);
    if cap.evicted == [] { assert st.pending - (set n | n in cap.evicted) == st.pending; }
  }

  lemma EvictionKeeps(c: Config, s: System, incoming: nat, id: string)
    requires Tidy(s)
    ensures
      var cap := EnforceCap(s.store, incoming, c.maxBytes);
      Keeps(s, s.(store := cap.store, evicted := s.evicted + IdsOf(s.store.pending, cap.evicted)), id)
  {
    hide IdOf, BaseName, MovedName, FileName, EnforceCap, Safe;
    var cap := EnforceCap(s.store, incoming, c.maxBytes);
    var s' := s.(store := cap.store, evicted := s.evicted + IdsOf(s.store.pending, cap.evicted));
    var gone := set n | n in cap.evicted;
    forall n | n in gone && n in s.store.pending ensures IdOf(n) in s'.evicted {
      NamedAt(s, Pending);
    }
    CapDirs(s.store, incoming, c.maxBytes);
    hide Tidy, SameDirs;
    RemoveKeeps(s, s', Pending, gone, id);
  }

  lemma AdmittedKeeps(c: Config, s: System, it: Item, ms: nat, id: string)
    requires Tidy(s) && '.' !in it.id
    ensures
      var put := s.store.(pending := s.store.pending[FileName(ms, it.id) := Readable(it, c.size(it))]);
      var s' := s.(store := Adjust(put, c.size(it)), added := s.added + {it.id});
      Keeps(s, s', id) && Safe(s', it.id)
  {
    NameSpellsId(ms, it.id);
    hide IdOf, BaseName, MovedName, FileName;
    var put := s.store.(pending := s.store.pending[FileName(ms, it.id) := Readable(it, c.size(it))]);
    var mid := s.(store := Adjust(put, c.size(it)));
    var s' := mid.(added := s.added + {it.id});
    PutKeeps(s, mid, FileName(ms, it.id), it, c.size(it), id);
    KeptKeeps(mid, s', id);
    KeptKeeps(mid, s', it.id);
  }

  /** A capture keeps every id safe, and the one it admits is. */
  lemma CaptureKeeps(c: Config, s: System, it: Item, ms: nat, diskOk: bool, id: string)
    requires Tidy(s) && '.' !in it.id
    ensures
      var s' := After(c, s, Capture(it, ms, diskOk));
      Keeps(s, s', id) && (s'.added == s.added || (s'.added == s.added + {it.id} && Safe(s', it.id)))
  {
    hide IdOf, BaseName, MovedName, FileName, EnforceCap;
    var s' := After(c, s, Capture(it, ms, diskOk));
    if !diskOk {
      KeptKeeps(s, s', id);
    } else {
      EvictionKeeps(c, s, c.size(it), id);
      var cap := EnforceCap(s.store, c.size(it), c.maxBytes);
      var swept := s.(store := cap.store, evicted := s.evicted + IdsOf(s.store.pending, cap.evicted));
      if cap.admitted { AdmittedKeeps(c, swept, it, ms, id); }
    }
  }

  /** In a tidy state a lease hands out what is in pending and changes no directory. */
  lemma LeaseKeeps(c: Config, s: System, n: int, id: string)
    requires Tidy(s)
    ensures Keeps(s, After(c, s, TakeLease(n)), id) && After(c, s, TakeLease(n)).store == s.store
  {
    hide IdOf, BaseName, MovedName, FileName;
    var names := FirstN(Listing(s.store.pending.Keys), n);
    assert D.TornOf(s.store.pending, names) == {};
    D.LeaseMovesTheTorn(s.store, names);
    var s' := After(c, s, TakeLease(n));
    assert Tidy(s');
    KeptKeeps(s, s', id);
  }

  lemma {:induction false} IngestedGrows(server: R.Server, sent: seq<R.Delivery>, now: Time)
    ensures server.stored.Keys <= R.Ingested(server, sent, now).stored.Keys
    ensures forall id :: id in R.AcceptedIds(sent) ==> id in R.Ingested(server, sent, now).stored
  {
    R.OneVerdictEach(server, sent, now);
  }

  /** Steps that leave every directory alone and lose nothing they know. */
  lemma MemoryKeeps(c: Config, s: System, step: Step, id: string)
    requires Tidy(s) && Enabled(s, step)
    requires step.ReplayLease? || step.Enrich? || step.Send? || step.Crash? || step.MeasureBytes? || step.CacheDrift?
    ensures Keeps(s, After(c, s, step), id)
  {
    hide IdOf, BaseName, MovedName, FileName;
    var s' := After(c, s, step);
    if step.Send? { IngestedGrows(s.server, R.Deliveries(ItemsOf(step.batch), step.tooBig), step.now); }
    assert Tidy(s');
    KeptKeeps(s, s', id);
  }

  /** What is acked is stored on the server, and the file of that name holds it. */
  lemma AckedIsStored(s: System, l: Leased)
    requires Tidy(s) && Enabled(s, AckOne(l))
    ensures l.item.id in s.server.stored && l.item.id == IdOf(l.name)
    ensures l.name in s.store.At(l.place) ==> Holds(s.store, l.place, l.name, l.item.id)
  {
    hide IdOf, BaseName, MovedName, FileName;
    NamedAt(s, l.place);
  }

  lemma AckDirs(st: Store, l: Leased)
    ensures SameDirs(Ack(st, l), st.With(l.place, st.At(l.place) - {l.name}))
  {
    hide IdOf, BaseName, MovedName, FileName;
    if l.name !in st.At(l.place) { assert st.At(l.place) - {l.name} == st.At(l.place); }
  }

  /** Taking an acked file away loses nothing. */
  lemma AckKeeps(c: Config, s: System, l: Leased, id: string)
    requires Tidy(s) && Enabled(s, AckOne(l))
    ensures Keeps(s, After(c, s, AckOne(l)), id) && l.item.id in s.server.stored
  {
    AckedIsStored(s, l);
    AckDirs(s.store, l);
    hide IdOf, BaseName, MovedName, FileName, Tidy, Safe, Ack, SameDirs, Holds;
    RemoveKeeps(s, After(c, s, AckOne(l)), l.place, {l.name}, id);
  }

  /** A verdict that moves the file out, as the move it is. */
  lemma MovingVerdict(c: Config, s: System, step: Step, id: string)
    requires Tidy(s) && Enabled(s, step) && Destination(c, s, step).Some?
    ensures Tidy(After(c, s, step))
    ensures !Disturbs(c, s, step, id) ==> Keeps(s, After(c, s, step), id)
  {
    hide IdOf, BaseName, MovedName, FileName;
    var to, tag := Destination(c, s, step).value.0, TagOf(step);
    var recorded := s.(store := Record(s.store, CounterOf(step), 1));
    KeptKeeps(s, recorded, id);
    MoveKeeps(recorded, recorded.(store := MoveOut(recorded.store, Pending, step.lease.name, to, tag)),
              step.lease.name, to, tag, id);
    MoveKeepsBaseName(step.lease.name, tag);
  }

  lemma VerdictKeeps(c: Config, s: System, step: Step, id: string)
    requires Tidy(s) && Enabled(s, step)
    requires step.RejectOne? || step.UndecidedOne? || step.FailOne?
    ensures Tidy(After(c, s, step))
    ensures !Disturbs(c, s, step, id) ==> Keeps(s, After(c, s, step), id)
  {
    hide IdOf, BaseName, MovedName, FileName;
    var l := step.lease;
    if Destination(c, s, step).Some? {
      MovingVerdict(c, s, step, id);
    } else {
      var it := if step.UndecidedOne? then l.item.(undecided := l.item.undecided + 1)
                else l.item.(attempts := l.item.attempts + 1);
      PutKeeps(s, After(c, s, step), l.name, it, c.size(it), id);
    }
  }

  lemma RedriveKeeps(c: Config, s: System, step: Step, id: string)
    requires Tidy(s) && Enabled(s, step) && (step.Publish? || step.Unlink?)
    ensures Keeps(s, After(c, s, step), id)
  {
    hide IdOf, BaseName, MovedName, FileName;
    var s' := After(c, s, step);
    if step.Unlink? {
      RemoveKeeps(s, s', step.place, {step.name}, id);
    } else {
      var it := s.store.At(step.place)[step.name].item.(attempts := 0, undecided := 0);
      var base := BaseName(step.name);
      MoveKeepsBaseName(step.name, "");
      NamedAt(s, step.place);
      var put := s.(store := s'.store);
      PutKeeps(s, put, base, it, c.size(it), id);
      if Safe(s, id) { PublishedSafe(put, s', step.place, step.name, base, id); }
    }
  }

  /** A file that stops counting is made good by the copy just published. */
  lemma PublishedSafe(s: System, s': System, place: Place, name: string, base: string, id: string)
    requires Tidy(s) && Safe(s, id) && place != Pending && IdOf(base) == IdOf(name) && base in s.store.pending
    requires s' == s.(midway := s.midway + {(place, name)})
    ensures Safe(s', id)
  {
    hide IdOf, BaseName, MovedName, FileName;
    if id !in s.server.stored && id !in s.evicted {
      var p, n := HolderOf(s, id);
      NamedAt(s, p);
      NamedAt(s, Pending);
      if (p, n) == (place, name) {
        CountingIsSafe(s', Pending, base, id);
      } else {
        CountingIsSafe(s', p, n, id);
      }
    }
  }

  /**
   * Every step leaves a tidy state, and keeps an id safe unless it moves a file onto
   * a name of that id which a redrive is about to unlink.
   */
  lemma StepKeeps(c: Config, s: System, step: Step, id: string)
    requires Tidy(s) && Enabled(s, step)
    ensures Tidy(After(c, s, step))
    ensures !Disturbs(c, s, step, id) ==> Keeps(s, After(c, s, step), id)
  {
    match step
    case Capture(it, ms, diskOk) => CaptureKeeps(c, s, it, ms, diskOk, id);
    case TakeLease(n) => LeaseKeeps(c, s, n, id);
    case ReplayLease(_) => MemoryKeeps(c, s, step, id);
    case Enrich(_, _) => MemoryKeeps(c, s, step, id);
    case Send(_, _, _, _) => MemoryKeeps(c, s, step, id);
    case AckOne(l) => AckKeeps(c, s, l, id);
    case RejectOne(_, _) => VerdictKeeps(c, s, step, id);
    case UndecidedOne(_) => VerdictKeeps(c, s, step, id);
    case FailOne(_) => VerdictKeeps(c, s, step, id);
    case Publish(_, _) => RedriveKeeps(c, s, step, id);
    case Unlink(_, _) => RedriveKeeps(c, s, step, id);
    case MeasureBytes => MemoryKeeps(c, s, step, id);
    case CacheDrift(_, _) => MemoryKeeps(c, s, step, id);
    case Crash => MemoryKeeps(c, s, step, id);
  }

  lemma AddedIsSafe(c: Config, s: System, step: Step, id: string)
    requires Tidy(s) && Enabled(s, step) && id !in s.added && id in After(c, s, step).added
    ensures Safe(After(c, s, step), id)
  {
    match step
    case Capture(it, ms, diskOk) => CaptureKeeps(c, s, it, ms, diskOk, id);
    case _ =>
  }

  // -------------------------------------------------------- what a step can lose

  /** The unlink takes the last file holding the id, and nothing else answers for it. */
  ghost predicate Loses(s: System, step: Step, id: string)
  {
    && step.Unlink? && Holds(s.store, step.place, step.name, id)
    && id !in s.server.stored && id !in s.evicted
    && forall q, m :: Holds(s.store, q, m, id) ==> (q, m) == (step.place, step.name)
  }

  lemma RemovedHolds(st: Store, p: Place, n: string, q: Place, m: string, id: string)
    ensures Holds(RedriveRemove(st, p, n), q, m, id) <==> Holds(st, q, m, id) && (q, m) != (p, n)
  {
  }

  lemma UnlinkLoses(c: Config, s: System, step: Step, id: string)
    requires Tidy(s) && Enabled(s, step) && step.Unlink? && Accounted(s, id)
    ensures !Accounted(After(c, s, step), id) <==> Loses(s, step, id)
  {
    var s' := After(c, s, step);
    hide IdOf, BaseName, MovedName, FileName, Tidy;
    assert s'.server == s.server && s'.evicted == s.evicted;
    forall q, m ensures Holds(s'.store, q, m, id)
      <==> Holds(s.store, q, m, id) && (q, m) != (step.place, step.name) {
      RemovedHolds(s.store, step.place, step.name, q, m, id);
    }
    hide Holds, After;
  }

  /** Forgetting which redrives are under way, for steps that start and end none. */
  lemma AccountedKeeps(c: Config, s: System, step: Step, id: string)
    requires Tidy(s) && Enabled(s, step) && !step.Unlink? && Accounted(s, id)
    ensures Accounted(After(c, s, step), id)
  {
    var s0 := s.(midway := {});
    assert Safe(s0, id);
    assert Enabled(s0, step) && !Disturbs(c, s0, step, id);
    StepKeeps(c, s0, step, id);
    hide IdOf, BaseName, MovedName, FileName, EnforceCap, Total, Listing, LeaseNames;
    var s', s0' := After(c, s, step), After(c, s0, step);
    assert s'.store == s0'.store && s'.server == s0'.server && s'.evicted == s0'.evicted;
  }

  /**
   * In any tidy state, whatever redrives are under way and whatever was disturbed
   * before, one kind of step loses an id and it does so exactly then: the unlink of
   * the last file that holds it, with the server and the eviction record silent.
   */
  lemma StepLosesExactly(c: Config, s: System, step: Step, id: string)
    requires Tidy(s) && Enabled(s, step) && Accounted(s, id)
    ensures !Accounted(After(c, s, step), id) <==> Loses(s, step, id)
  {
    if step.Unlink? { UnlinkLoses(c, s, step, id); } else { AccountedKeeps(c, s, step, id); }
  }

  // -------------------------------------------------------------- every run

  /** A run: each step enabled where it is taken. */
  ghost predicate IsRun(c: Config, s: System, steps: seq<Step>)
    decreases |steps|
  {
    steps == [] || (Enabled(s, steps[0]) && IsRun(c, After(c, s, steps[0]), steps[1..]))
  }

  ghost function End(c: Config, s: System, steps: seq<Step>): System
    requires IsRun(c, s, steps)
    decreases |steps|
  {
    if steps == [] then s else End(c, After(c, s, steps[0]), steps[1..])
  }

  /** No step of the run moves a file onto a name of that id a redrive is about to unlink. */
  ghost predicate Undisturbed(c: Config, s: System, steps: seq<Step>, id: string)
    requires IsRun(c, s, steps)
    decreases |steps|
  {
    steps == [] || (!Disturbs(c, s, steps[0], id) && Undisturbed(c, After(c, s, steps[0]), steps[1..], id))
  }

  /** Some step of the run loses the id. */
  ghost predicate LosesOnTheWay(c: Config, s: System, steps: seq<Step>, id: string)
    requires IsRun(c, s, steps)
    decreases |steps|
  {
    steps != [] && (Loses(s, steps[0], id) || LosesOnTheWay(c, After(c, s, steps[0]), steps[1..], id))
  }

  lemma {:induction false} RunKeeps(c: Config, s: System, steps: seq<Step>, id: string)
    requires Tidy(s) && IsRun(c, s, steps)
    ensures Tidy(End(c, s, steps))
    ensures Undisturbed(c, s, steps, id) && (id in s.added ==> Safe(s, id)) && id in End(c, s, steps).added ==>
              Safe(End(c, s, steps), id)
    ensures (id in s.added ==> Accounted(s, id)) && id in End(c, s, steps).added ==>
              Accounted(End(c, s, steps), id) || LosesOnTheWay(c, s, steps, id)
    decreases |steps|
  {
    if steps != [] {
      var s' := After(c, s, steps[0]);
      StepKeeps(c, s, steps[0], id);
      RunKeeps(c, s', steps[1..], id);
      hide After, Enabled, Tidy, Safe, Accounted, Disturbs, Loses;
      AddedStays(c, s, steps[0], id);
      if id !in s.added && id in s'.added { AddedIsSafe(c, s, steps[0], id); SafeIsAccounted(s', id); }
      if id in s.added && Accounted(s, id) { StepLosesExactly(c, s, steps[0], id); }
      if id in s.added && Safe(s, id) && !Disturbs(c, s, steps[0], id) { KeepsSafe(s, s', id); }
    }
  }

  lemma AddedStays(c: Config, s: System, step: Step, id: string)
    requires Enabled(s, step)
    ensures id in s.added ==> id in After(c, s, step).added
  {
    hide IdOf, BaseName, MovedName, FileName, EnforceCap, Total, Listing, LeaseNames;
  }

  lemma KeepsSafe(s: System, s': System, id: string)
    requires Keeps(s, s', id) && Safe(s, id)
    ensures Safe(s', id)
  {
  }

  lemma SafeIsAccounted(s: System, id: string)
    requires Safe(s, id)
    ensures Accounted(s, id)
  {
  }

  /**
   * No silent loss: in every run in which no move lands on a file of that id which a
   * redrive is about to unlink, a captured id is in a directory, on the server, or
   * recorded as evicted by the cap.
   */
  lemma NoSilentLoss(c: Config, steps: seq<Step>, id: string)
    requires IsRun(c, INIT, steps) && Undisturbed(c, INIT, steps, id) && id in End(c, INIT, steps).added
    ensures Accounted(End(c, INIT, steps), id)
  {
    InitHolds();
    RunKeeps(c, INIT, steps, id);
    SafeIsAccounted(End(c, INIT, steps), id);
  }

  /**
   * And in every run at all: what was heard accepted is stored, and a captured id that is
   * nowhere was lost by the unlink of its last file, after some move had landed on such a file.
   */
  lemma LossIsAnUnlink(c: Config, steps: seq<Step>, id: string)
    requires IsRun(c, INIT, steps)
    ensures
      var s := End(c, INIT, steps);
      && s.heard <= s.server.stored.Keys
      && (id in s.added && !Accounted(s, id) ==>
            LosesOnTheWay(c, INIT, steps, id) && !Undisturbed(c, INIT, steps, id))
  {
    InitHolds();
    RunKeeps(c, INIT, steps, id);
    if Safe(End(c, INIT, steps), id) { SafeIsAccounted(End(c, INIT, steps), id); }
  }

  // -------------------------------------------------- one drain cycle is a run

  lemma {:induction false} RunAppend(c: Config, s: System, a: seq<Step>, b: seq<Step>)
    requires IsRun(c, s, a) && IsRun(c, End(c, s, a), b)
    ensures IsRun(c, s, a + b) && End(c, s, a + b) == End(c, End(c, s, a), b)
    decreases |a|
  {
    hide After, Enabled;
    if a == [] {
      assert a + b == b;
    } else {
      assert (a + b)[1..] == a[1..] + b;
      RunAppend(c, After(c, s, a[0]), a[1..], b);
    }
  }

  lemma OneStepRun(c: Config, s: System, step: Step)
    requires Enabled(s, step)
    ensures IsRun(c, s, [step]) && End(c, s, [step]) == After(c, s, step)
  {
    hide After, Enabled;
    assert [step][1..] == [];
  }

  /** The step applyVerdict takes for one item. */
  function VerdictStep(l: Leased, resp: D.Response): Step
  {
    if l.item.id in resp.accepted then AckOne(l)
    else if D.IsRejected(resp.rejected, l.item.id) then
      RejectOne(l, Reasons.Tag(D.ReasonFor(resp.rejected, l.item.id)))
    else UndecidedOne(l)
  }

  function VerdictSteps(batch: seq<Leased>, resp: D.Response): seq<Step>
  {
    if batch == [] then [] else [VerdictStep(batch[0], resp)] + VerdictSteps(batch[1..], resp)
  }

  lemma {:induction false} VerdictsAreARun(c: Config, s: System, batch: seq<Leased>, resp: D.Response)
    requires forall l :: l in batch ==> l in s.leases && l.place == Pending
    requires forall l :: l in batch && l.item.id in resp.accepted ==> l.item.id in s.heard
    ensures
      && IsRun(c, s, VerdictSteps(batch, resp))
      && End(c, s, VerdictSteps(batch, resp))
         == s.(store := D.Verdicts(s.store, batch, resp, c.size, c.maxUndecided))
    decreases |batch|
  {
    if batch != [] {
      var step := VerdictStep(batch[0], resp);
      var s' := s.(store := D.VerdictOne(s.store, batch[0], resp, c.size, c.maxUndecided));
      assert Enabled(s, step) && After(c, s, step) == s';
      VerdictsAreARun(c, s', batch[1..], resp);
      assert VerdictSteps(batch, resp)[1..] == VerdictSteps(batch[1..], resp);
    }
  }

  function EnrichSteps(leased: seq<Leased>, enrich: Item -> Payload): seq<Step>
  {
    if leased == [] then [] else [Enrich(leased[0], enrich(leased[0].item))] + EnrichSteps(leased[1..], enrich)
  }

  lemma {:induction false} EnrichIsARun(c: Config, s: System, leased: seq<Leased>, enrich: Item -> Payload)
    requires forall l :: l in leased ==> l in s.leases
    ensures
      && IsRun(c, s, EnrichSteps(leased, enrich))
      && var s' := End(c, s, EnrichSteps(leased, enrich));
         && s' == s.(leases := s'.leases) && s.leases <= s'.leases
         && forall l :: l in D.Enriched(leased, enrich) ==> l in s'.leases
    decreases |leased|
  {
    if leased != [] {
      var s1 := After(c, s, Enrich(leased[0], enrich(leased[0].item)));
      EnrichIsARun(c, s1, leased[1..], enrich);
      assert EnrichSteps(leased, enrich)[1..] == EnrichSteps(leased[1..], enrich);
      var all, rest := D.Enriched(leased, enrich), D.Enriched(leased[1..], enrich);
      assert all == [all[0]] + rest;
    }
  }

  /** The steps of one cycle: lease, enrich, send the longest prefix that fits, hear the answer, act on it. */
  ghost function CycleSteps(
      s: Store, enrich: Item -> Payload, resp: D.Response, o: D.Settings, tooBig: bool, now: Time): seq<Step>
  {
    [TakeLease(o.batchSize)]
    + EnrichSteps(Lease(s, o.batchSize).1, enrich)
    + [Send(D.BatchOf(s, enrich, o), tooBig, true, now)]
    + VerdictSteps(D.BatchOf(s, enrich, o), resp)
  }

  /**
   * A cycle of the drain against a server that answers for what it stored is a
   * run of the protocol, so what holds of every run holds of it.
   */
  lemma CycleIsARun(
      c: Config, s: System, enrich: Item -> Payload, resp: D.Response, o: D.Settings, tooBig: bool, now: Time)
    requires o.size == c.size && o.maxUndecided == c.maxUndecided
    requires forall id :: id in resp.accepted ==>
               id in R.AcceptedIds(R.Deliveries(ItemsOf(D.BatchOf(s.store, enrich, o)), tooBig))
    ensures
      var steps := CycleSteps(s.store, enrich, resp, o, tooBig, now);
      && IsRun(c, s, steps)
      && End(c, s, steps).store == D.Cycle(s.store, enrich, D.Answered(resp), o)
  {
    var (store, leased) := Lease(s.store, o.batchSize);
    var batch := D.BatchOf(s.store, enrich, o);
    var s1 := After(c, s, TakeLease(o.batchSize));
    var first := [TakeLease(o.batchSize)];
    OneStepRun(c, s, first[0]);
    EnrichIsARun(c, s1, leased, enrich);
    RunAppend(c, s, first, EnrichSteps(leased, enrich));
    var s2 := End(c, s1, EnrichSteps(leased, enrich));
    var sending := Send(batch, tooBig, true, now);
    BatchLeased(s.store, enrich, o, s2);
    var s3 := After(c, s2, sending);
    OneStepRun(c, s2, sending);
    RunAppend(c, s, first + EnrichSteps(leased, enrich), [sending]);
    VerdictsAreARun(c, s3, batch, resp);
    RunAppend(c, s, first + EnrichSteps(leased, enrich) + [sending], VerdictSteps(batch, resp));
  }

  lemma BatchLeased(store: Store, enrich: Item -> Payload, o: D.Settings, s: System)
    requires forall l :: l in D.Enriched(Lease(store, o.batchSize).1, enrich) ==> l in s.leases
    ensures forall l :: l in D.BatchOf(store, enrich, o) ==> l in s.leases && l.place == Pending
  {
    var leased := Lease(store, o.batchSize).1;
    var all := D.Enriched(leased, enrich);
    forall l | l in D.BatchOf(store, enrich, o) ensures l in s.leases && l.place == Pending {
      var i :| 0 <= i < |all| && all[i] == l;
      assert leased[i] in leased;
    }
  }

  // ------------------------------------------------- where the code does lose

  /** The step moves a pending file onto the name (p, n). */
  predicate LandsOn(c: Config, s: System, step: Step, p: Place, n: string)
  {
    (step.RejectOne? || step.UndecidedOne? || step.FailOne?)
    && step.lease.name in s.store.pending && Destination(c, s, step) == Some((p, n))
  }

  /** Besides the file and the name it is redriven to, nothing answers for its id. */
  ghost predicate OnlyCopy(s: System, p: Place, n: string)
  {
    && IdOf(n) !in s.server.stored && IdOf(n) !in s.evicted
    && forall q, m :: Holds(s.store, q, m, IdOf(n)) ==> (q, m) == (p, n) || (q, m) == (Pending, BaseName(n))
  }

  /** The tag and the counter a moving verdict uses. */
  function TagOf(step: Step): string
  {
    match step
    case RejectOne(_, tag) => "rejected-" + tag
    case FailOne(_) => "max_attempts"
    case _ => ""
  }

  function CounterOf(step: Step): string
  {
    match step
    case RejectOne(_, tag) => "rejected:" + tag
    case FailOne(_) => "max_attempts"
    case _ => "parked"
  }

  lemma LandingIsAMove(c: Config, s: System, step: Step, p: Place, n: string)
    requires Enabled(s, step) && LandsOn(c, s, step, p, n)
    ensures p != Pending && MovedName(step.lease.name, TagOf(step)) == n
    ensures step.lease in s.leases && step.lease.place == Pending
    ensures After(c, s, step)
            == s.(store := MoveOut(Record(s.store, CounterOf(step), 1), Pending, step.lease.name, p, TagOf(step)))
  {
    hide IdOf, BaseName, MovedName, FileName;
  }

  lemma MovedHolds(s: System, s': System, name: string, to: Place, tag: string, q: Place, m: string)
    requires Tidy(s) && IsMove(s, s', name, to, tag)
    ensures
      var n := MovedName(name, tag);
      && IdOf(n) == IdOf(name) && BaseName(n) == name
      && (Holds(s'.store, q, m, IdOf(n))
          <==> (q, m) == (to, n) || (Holds(s.store, q, m, IdOf(n)) && (q, m) != (Pending, name)))
  {
    MoveKeepsBaseName(name, tag);
    hide IdOf, BaseName, MovedName, FileName;
    NamedAt(s, Pending);
  }

  /** Once a move has landed on the file, the unlink loses its id exactly when it was the only copy. */
  lemma LandedThenLoses(c: Config, s: System, p: Place, n: string, step: Step)
    requires Tidy(s) && (p, n) in s.midway && Enabled(s, step) && LandsOn(c, s, step, p, n)
    ensures Loses(After(c, s, step), Unlink(p, n), IdOf(n)) <==> OnlyCopy(s, p, n)
  {
    var name, tag, s' := step.lease.name, TagOf(step), After(c, s, step);
    LandingIsAMove(c, s, step, p, n);
    MoveOutDirs(Record(s.store, CounterOf(step), 1), Pending, name, p, tag);
    hide IdOf, BaseName, MovedName, FileName, MoveOut, After, Tidy;
    assert IsMove(s, s', name, p, tag);
    forall q, m ensures Holds(s'.store, q, m, IdOf(n))
      <==> (q, m) == (p, n) || (Holds(s.store, q, m, IdOf(n)) && (q, m) != (Pending, BaseName(n))) {
      MovedHolds(s, s', name, p, tag, q, m);
    }
    hide Holds, IsMove;
  }

  /**
   * Redrive is not taken under the delivery lock. In any state in which a file is published
   * and not yet unlinked and its id is safe, one more step of any process and then the unlink
   * lose the id exactly when that step moves the republished copy back onto the file and no
   * other copy exists.
   */
  lemma RedriveRaceExact(c: Config, s: System, p: Place, n: string, step: Step)
    requires Tidy(s) && (p, n) in s.midway && Safe(s, IdOf(n))
    requires Enabled(s, step) && Enabled(After(c, s, step), Unlink(p, n))
    requires Disturbs(c, s, step, IdOf(n)) ==> LandsOn(c, s, step, p, n)
    ensures
      !Accounted(After(c, After(c, s, step), Unlink(p, n)), IdOf(n)) <==> LandsOn(c, s, step, p, n) && OnlyCopy(s, p, n)
  {
    var id, s1 := IdOf(n), After(c, s, step);
    StepKeeps(c, s, step, id);
    if LandsOn(c, s, step, p, n) {
      LandedThenLoses(c, s, p, n, step);
      SafeIsAccounted(s, id);
      if step.Unlink? { assert false; }
      AccountedKeeps(c, s, step, id);
      UnlinkLoses(c, s1, Unlink(p, n), id);
    } else {
      hide IdOf, BaseName, MovedName, FileName, After, Enabled, Tidy, Safe;
      KeepsSafe(s, s1, id);
      RedriveKeeps(c, s1, Unlink(p, n), id);
      KeepsSafe(s1, After(c, s1, Unlink(p, n)), id);
      SafeIsAccounted(After(c, s1, Unlink(p, n)), id);
    }
  }

  /** The item a redrive publishes. */
  function Reset(it: Item): Item
  {
    it.(attempts := 0, undecided := 0)
  }

  /** What the other process leases of a file that has just been republished. */
  function Release(s: System, n: string): Leased
    requires n in s.store.quarantine && s.store.quarantine[n].Readable?
  {
    Leased(Pending, BaseName(n), Reset(s.store.quarantine[n].item))
  }

  /** Publishing a quarantined file. */
  lemma Published(c: Config, s: System, n: string)
    requires Tidy(s) && n in s.store.quarantine
    ensures s.store.quarantine[n].Readable? && Enabled(s, Publish(Quarantine, n))
    ensures
      var s1, it := After(c, s, Publish(Quarantine, n)), Reset(s.store.quarantine[n].item);
      && Tidy(s1) && (Quarantine, n) in s1.midway
      && s1 == s.(store := s1.store, midway := s1.midway)
      && s1.store == s.store.(pending := s.store.pending[BaseName(n) := Readable(it, c.size(it))])
  {
    hide IdOf, BaseName, MovedName, FileName;
    NamedAt(s, Quarantine);
    RedriveKeeps(c, s, Publish(Quarantine, n), "");
  }

  /** A lease of everything hands out each pending file. */
  lemma AllLeased(c: Config, s: System, name: string)
    requires Tidy(s) && name in s.store.pending
    ensures
      var s' := After(c, s, TakeLease(0));
      && Tidy(s') && s' == s.(leases := s'.leases)
      && s.store.pending[name].Readable? && Leased(Pending, name, s.store.pending[name].item) in s'.leases
  {
    hide IdOf, BaseName, MovedName, FileName, LeaseNames;
    NamedAt(s, Pending);
    LeaseKeeps(c, s, 0, "");
    var names := Listing(s.store.pending.Keys);
    ListingSorted(s.store.pending.Keys);
    assert name in names && FirstN(names, 0) == names;
    LeaseHandsOut(s.store, names, Leased(Pending, name, s.store.pending[name].item));
  }

  lemma SameOnlyCopy(s: System, s2: System, n: string, f: File)
    requires s2.store == s.store.(pending := s.store.pending[BaseName(n) := f])
    requires s2.server == s.server && s2.evicted == s.evicted
    ensures OnlyCopy(s2, Quarantine, n) <==> OnlyCopy(s, Quarantine, n)
  {
    hide IdOf, BaseName, MovedName, FileName;
    forall q, m | (q, m) != (Pending, BaseName(n))
      ensures Holds(s.store, q, m, IdOf(n)) <==> Holds(s2.store, q, m, IdOf(n)) {
    }
    hide Holds;
  }

  /** The state with the file republished and leased by another process. */
  ghost function Republished(c: Config, s: System, n: string): System
    requires Enabled(s, Publish(Quarantine, n))
  {
    After(c, After(c, s, Publish(Quarantine, n)), TakeLease(0))
  }

  /** Nothing else holds or answers for the id than before. */
  lemma RepublishedFacts(c: Config, s: System, n: string)
    requires Tidy(s) && n in s.store.quarantine && Enabled(s, Publish(Quarantine, n))
    ensures
      var s2 := Republished(c, s, n);
      && Tidy(s2) && (Quarantine, n) in s2.midway && Release(s, n) in s2.leases && BaseName(n) in s2.store.pending
      && n in s2.store.quarantine && (OnlyCopy(s2, Quarantine, n) <==> OnlyCopy(s, Quarantine, n))
  {
    Published(c, s, n);
    var s1 := After(c, s, Publish(Quarantine, n));
    hide IdOf, BaseName, MovedName, FileName, After, Tidy, OnlyCopy;
    AllLeased(c, s1, BaseName(n));
    SameOnlyCopy(s, Republished(c, s, n), n, s1.store.pending[BaseName(n)]);
  }

  /**
   * The race needs no lease from before: publish, a lease by another process, its rejection
   * under the old reason, unlink. From every tidy state, it loses an item that was rejected
   * for that reason exactly when nothing else answers for its id.
   */
  lemma RedriveLoses(c: Config, s: System, n: string, tag: string)
    requires Tidy(s) && n in s.store.quarantine && n == MovedName(BaseName(n), "rejected-" + tag)
    ensures s.store.quarantine[n].Readable?
    ensures
      var steps := [Publish(Quarantine, n), TakeLease(0), RejectOne(Release(s, n), tag), Unlink(Quarantine, n)];
      && IsRun(c, s, steps)
      && (!Accounted(End(c, s, steps), IdOf(n)) <==> OnlyCopy(s, Quarantine, n))
  {
    Published(c, s, n);
    RepublishedFacts(c, s, n);
    RejectLands(c, Republished(c, s, n), n, Release(s, n), tag);
    RaceIsARun(c, s, n, RejectOne(Release(s, n), tag));
    hide IdOf, BaseName, MovedName, FileName, After, Tidy, Accounted, OnlyCopy, IsRun, End, LandsOn, Republished;
    RejectedThenUnlinked(c, Republished(c, s, n), n, RejectOne(Release(s, n), tag));
  }

  lemma RaceIsARun(c: Config, s: System, n: string, step: Step)
    requires Enabled(s, Publish(Quarantine, n)) && Enabled(Republished(c, s, n), step)
    requires Enabled(After(c, Republished(c, s, n), step), Unlink(Quarantine, n))
    ensures
      var steps := [Publish(Quarantine, n), TakeLease(0), step, Unlink(Quarantine, n)];
      && IsRun(c, s, steps)
      && End(c, s, steps) == After(c, After(c, Republished(c, s, n), step), Unlink(Quarantine, n))
  {
    hide After;
    FourSteps(c, s, [Publish(Quarantine, n), TakeLease(0), step, Unlink(Quarantine, n)]);
  }

  lemma RejectLands(c: Config, s: System, n: string, l: Leased, tag: string)
    requires (Quarantine, n) in s.midway && l in s.leases && l.place == Pending
    requires l.name in s.store.pending && n == MovedName(l.name, "rejected-" + tag)
    ensures Enabled(s, RejectOne(l, tag)) && Enabled(After(c, s, RejectOne(l, tag)), Unlink(Quarantine, n))
    ensures LandsOn(c, s, RejectOne(l, tag), Quarantine, n)
  {
    hide IdOf, BaseName, MovedName, FileName, MoveOut;
  }

  lemma RejectedThenUnlinked(c: Config, s: System, n: string, step: Step)
    requires Tidy(s) && n in s.store.quarantine && (Quarantine, n) in s.midway
    requires Enabled(s, step) && LandsOn(c, s, step, Quarantine, n) && Enabled(After(c, s, step), Unlink(Quarantine, n))
    ensures !Accounted(After(c, After(c, s, step), Unlink(Quarantine, n)), IdOf(n)) <==> OnlyCopy(s, Quarantine, n)
  {
    NamedAt(s, Quarantine);
    assert Holds(s.store, Quarantine, n, IdOf(n));
    StepKeeps(c, s, step, IdOf(n));
    LandedThenLoses(c, s, Quarantine, n, step);
    LandingIsAMove(c, s, step, Quarantine, n);
    hide IdOf, BaseName, MovedName, FileName, Tidy, Holds, OnlyCopy, Loses, MoveOut;
    assert Accounted(s, IdOf(n));
    hide Accounted, After;
    AccountedKeeps(c, s, step, IdOf(n));
    UnlinkLoses(c, After(c, s, step), Unlink(Quarantine, n), IdOf(n));
  }

  lemma FourSteps(c: Config, s: System, steps: seq<Step>)
    requires |steps| == 4 && Enabled(s, steps[0])
    requires
      var s1 := After(c, s, steps[0]);
      && Enabled(s1, steps[1])
      && var s2 := After(c, s1, steps[1]);
         Enabled(s2, steps[2]) && Enabled(After(c, s2, steps[2]), steps[3])
    ensures
      var s3 := After(c, After(c, After(c, s, steps[0]), steps[1]), steps[2]);
      IsRun(c, s, steps) && End(c, s, steps) == After(c, s3, steps[3])
  {
    hide After, Enabled;
    var s1 := After(c, s, steps[0]);
    var s2 := After(c, s1, steps[1]);
    var s3 := After(c, s2, steps[2]);
    assert steps[1..] == [steps[1], steps[2], steps[3]] && steps[1..][1..] == [steps[2], steps[3]];
    OneStepRun(c, s3, steps[3]);
    assert [steps[2], steps[3]][1..] == [steps[3]];
    assert IsRun(c, s2, [steps[2], steps[3]]) && End(c, s2, [steps[2], steps[3]]) == After(c, s3, steps[3]);
    assert IsRun(c, s1, steps[1..]) && End(c, s1, steps[1..]) == After(c, s3, steps[3]);
  }
}
