/** The durable outbox: three directories of items, a byte cap and a cached byte total. */
module Spool {
  import opened Events
  import opened Names
  import Sums

  /** A published file: an item that parses, or one that does not. */
  datatype File =
    | Readable(item: Item, size: nat)
    | Torn(size: nat)

  type Dir = map<string, File>

  datatype Place = Pending | Quarantine | Parked

  /** An item checked out for delivery, with the path it was read from. */
  datatype Leased = Leased(place: Place, name: string, item: Item)

  /** The spool directory and its state file. */
  datatype Store = Store(
    pending: Dir,
    quarantine: Dir,
    parked: Dir,
    pendingBytes: int,
    pendingMeasured: bool,
    dropped: map<string, nat>)
  {
    function At(place: Place): Dir
    {
      match place
      case Pending => pending
      case Quarantine => quarantine
      case Parked => parked
    }

    function With(place: Place, dir: Dir): Store
    {
      match place
      case Pending => this.(pending := dir)
      case Quarantine => this.(quarantine := dir)
      case Parked => this.(parked := dir)
    }
  }

  // ------------------------------------------------------------ bookkeeping

  function Counted(counters: map<string, nat>, reason: string, n: nat): map<string, nat>
  {
    if n == 0 then counters
    else counters[reason := (if reason in counters then counters[reason] else 0) + n]
  }

  lemma CountedOneMore(counters: map<string, nat>, reason: string, n: nat)
    ensures Counted(Counted(counters, reason, n), reason, 1) == Counted(counters, reason, n + 1)
  {
    if n > 0 {
      var v := if reason in counters then counters[reason] else 0;
      assert counters[reason := v + n][reason := v + n + 1] == counters[reason := v + n + 1];
    }
  }

  /** Record: adds n to a durable counter. */
  function Record(s: Store, reason: string, n: nat): Store
  {
    s.(dropped := Counted(s.dropped, reason, n))
  }

  /** adjustPendingBytes: the cached total never goes below zero. */
  function Adjust(s: Store, delta: int): Store
  {
    if delta == 0 then s
    else s.(pendingBytes := if s.pendingBytes + delta < 0 then 0 else s.pendingBytes + delta)
  }

  ghost function Sizes(d: Dir): map<string, nat>
  {
    map n | n in d :: d[n].size
  }

  /** The bytes really in a directory. */
  ghost function Total(d: Dir): nat
  {
    Sums.Sum(Sizes(d))
  }

  lemma TotalUpdate(d: Dir, name: string, f: File)
    ensures Total(d[name := f]) == Total(d) + f.size - (if name in d then d[name].size else 0)
  {
    Sums.SumUpdate(Sizes(d), name, f.size);
    assert Sizes(d[name := f]) == Sizes(d)[name := f.size];
  }

  lemma TotalRemove(d: Dir, name: string)
    requires name in d
    ensures Total(d) == d[name].size + Total(d - {name})
  {
    Sums.SumRemove(Sizes(d), name);
    assert Sizes(d - {name}) == Sizes(d) - {name};
  }

  // ---------------------------------------------------------------- the cap

  /** Names with the n oldest taken out. */
  ghost function Without(d: Dir, names: seq<string>): Dir
  {
    d - (set n | n in names)
  }

  /**
   * How many of the oldest files go: the fewest that make the incoming bytes
   * fit, or all of them.
   */
  ghost function EvictCount(d: Dir, names: seq<string>, incoming: nat, max: nat): (k: nat)
    ensures k <= |names|
  {
    if names == [] || Total(d) + incoming <= max then 0
    else 1 + EvictCount(d - {names[0]}, names[1..], incoming, max)
  }

  /** The prefix evicted suffices or is everything, and no shorter prefix would have sufficed. */
  lemma {:induction false} EvictShortestPrefix(d: Dir, names: seq<string>, incoming: nat, max: nat)
    ensures
      var k := EvictCount(d, names, incoming, max);
      && (k < |names| ==> Total(Without(d, names[..k])) + incoming <= max)
      && (forall j :: 0 <= j < k ==> Total(Without(d, names[..j])) + incoming > max)
  {
    var k := EvictCount(d, names, incoming, max);
    assert Without(d, names[..0]) == d;
    if k > 0 {
      var d', names' := d - {names[0]}, names[1..];
      EvictShortestPrefix(d', names', incoming, max);
      forall j | 0 < j <= |names| ensures Without(d, names[..j]) == Without(d', names'[..j - 1]) {
        assert names[..j] == [names[0]] + names'[..j - 1];
      }
    }
  }

  /** One eviction: the next oldest file is still there, and taking it out extends the prefix. */
  lemma EvictStep(start: Dir, names: seq<string>, k: nat, incoming: nat, max: nat)
    requires k < |names| && Sorted(names) && names[k] in start
    ensures
      var now := Without(start, names[..k]);
      && names[k] in now
      && Without(start, names[..k + 1]) == now - {names[k]}
      && Total(now) == now[names[k]].size + Total(now - {names[k]})
      && (Total(now) + incoming > max ==>
            EvictCount(now, names[k..], incoming, max)
            == 1 + EvictCount(now - {names[k]}, names[k + 1..], incoming, max))
  {
    SortedNoRepeats(names);
    assert names[..k + 1] == names[..k] + [names[k]];
    assert names[k..][1..] == names[k + 1..];
    TotalRemove(Without(start, names[..k]), names[k]);
  }

  /** What enforceCap leaves: the store, whether the write may go ahead, and the evicted names. */
  datatype CapResult = CapResult(store: Store, admitted: bool, evicted: seq<string>)

  /** The cached total is trusted below nine tenths of the cap. */
  function CacheTrusted(s: Store, incoming: nat, max: nat): bool
  {
    s.pendingMeasured && s.pendingBytes >= 0 && 10 * (s.pendingBytes + incoming) < 9 * max
  }

  /** The scan: measure, evict the oldest, write the measurement back, and see whether there is room. */
  ghost function ScanCap(s: Store, incoming: nat, max: nat): CapResult
  {
    var names := Listing(s.pending.Keys);
    var evicted := names[..EvictCount(s.pending, names, incoming, max)];
    var left := Without(s.pending, evicted);
    var admitted := Total(left) + incoming <= max;
    var counted := Counted(s.dropped, "queue_overflow", |evicted|);
    CapResult(
      s.(pending := left, pendingBytes := Total(left), pendingMeasured := true,
         dropped := if admitted then counted else Counted(counted, "queue_overflow", 1)),
      admitted, evicted)
  }

  ghost function EnforceCap(s: Store, incoming: nat, max: nat): CapResult
  {
    if CacheTrusted(s, incoming, max) then CapResult(s, true, []) else ScanCap(s, incoming, max)
  }

  // ------------------------------------------------------------- operations

  /** Add: refuse on a full disk, make room, publish by rename, count the bytes. */
  ghost function Add(s: Store, it: Item, ms: nat, size: Item -> nat, max: nat, diskOk: bool): CapResult
  {
    if !diskOk then CapResult(Record(s, "disk_full", 1), false, [])
    else
      var r := EnforceCap(s, size(it), max);
      if !r.admitted then r
      else
        var name := FileName(ms, it.id);
        r.(store := Adjust(r.store.(pending := r.store.pending[name := Readable(it, size(it))]), size(it)))
  }

  /** moveOut: a file that has vanished is left alone. */
  function MoveOut(s: Store, from: Place, name: string, to: Place, tag: string): Store
  {
    if name !in s.At(from) then s
    else
      var f := s.At(from)[name];
      var s1 := s.With(from, s.At(from) - {name});
      Adjust(s1.With(to, s1.At(to)[MovedName(name, tag) := f]), 0 - f.size)
  }

  lemma MoveOutDirs(s: Store, from: Place, name: string, to: Place, tag: string)
    requires from != to && name in s.At(from)
    ensures
      var s' := MoveOut(s, from, name, to, tag);
      && s'.At(from) == s.At(from) - {name}
      && s'.At(to) == s.At(to)[MovedName(name, tag) := s.At(from)[name]]
      && forall p :: p != from && p != to ==> s'.At(p) == s.At(p)
  {
  }

  lemma TwoMoves(s: Store, x: string, y: string, to: Place, tag: string)
    requires to != Pending && x in s.pending && y in s.pending && x != y
    ensures
      var dir := MoveOut(MoveOut(s, Pending, x, to, tag), Pending, y, to, tag).At(to);
      && MovedName(x, tag) in dir && MovedName(y, tag) in dir
      && (dir[MovedName(x, tag)] == s.pending[x] && dir[MovedName(y, tag)] == s.pending[y]
          <==> MovedName(x, tag) != MovedName(y, tag) || s.pending[x] == s.pending[y])
  {
    hide MovedName;
    MoveOutDirs(s, Pending, x, to, tag);
    MoveOutDirs(MoveOut(s, Pending, x, to, tag), Pending, y, to, tag);
  }

  /**
   * Two different published files moved to one directory under one tag are both kept, unless they
   * were captured in the same millisecond and their ids agree up to a dot.
   */
  lemma MovesKeepBoth(s: Store, ms: nat, id: string, ms': nat, id': string, to: Place, tag: string)
    requires to != Pending && FileName(ms, id) in s.pending && FileName(ms', id') in s.pending
    requires s.pending[FileName(ms, id)] != s.pending[FileName(ms', id')]
    ensures
      var x, y := FileName(ms, id), FileName(ms', id');
      var dir := MoveOut(MoveOut(s, Pending, x, to, tag), Pending, y, to, tag).At(to);
      && MovedName(x, tag) in dir && MovedName(y, tag) in dir
      && (dir[MovedName(x, tag)] == s.pending[x] && dir[MovedName(y, tag)] == s.pending[y]
          <==> !(ms == ms' && UpTo(id, '.') == UpTo(id', '.')))
  {
    MovedCollideExactly(ms, id, ms', id', tag);
    hide MovedName, FileName;
    TwoMoves(s, FileName(ms, id), FileName(ms', id'), to, tag);
  }

  /** rewrite: the file is published under its old name whether or not it is still there. */
  function Rewrite(s: Store, l: Leased, size: Item -> nat): Store
  {
    s.With(l.place, s.At(l.place)[l.name := Readable(l.item, size(l.item))])
  }

  /** Ack: the only removal of a delivered item; only pending bytes are counted back. */
  function Ack(s: Store, l: Leased): Store
  {
    if l.name !in s.At(l.place) then s
    else
      var f := s.At(l.place)[l.name];
      var s1 := s.With(l.place, s.At(l.place) - {l.name});
      if l.place == Pending then Adjust(s1, 0 - f.size) else s1
  }

  function Reject(s: Store, l: Leased, tag: string): Store
  {
    MoveOut(Record(s, "rejected:" + tag, 1), l.place, l.name, Quarantine, "rejected-" + tag)
  }

  /** Undecided: one more silent delivery; at the cutoff the file is parked as it is on disk. */
  function Undecided(s: Store, l: Leased, size: Item -> nat, maxUndecided: nat): Store
  {
    if l.item.undecided + 1 >= maxUndecided then
      MoveOut(Record(s, "parked", 1), l.place, l.name, Parked, "")
    else
      Rewrite(s, l.(item := l.item.(undecided := l.item.undecided + 1)), size)
  }

  /** Fail: the reserved path for a failure charged to one item. */
  function Fail(s: Store, l: Leased, size: Item -> nat, maxAttempts: nat): Store
  {
    if l.item.attempts + 1 >= maxAttempts then
      MoveOut(Record(s, "max_attempts", 1), l.place, l.name, Quarantine, "max_attempts")
    else
      Rewrite(s, l.(item := l.item.(attempts := l.item.attempts + 1)), size)
  }

  /** Lease over the names listed: torn files go to quarantine, readable ones are handed out. */
  function LeaseNames(s: Store, names: seq<string>): (r: (Store, seq<Leased>))
    ensures forall l :: l in r.1 ==> l.place == Pending && l.name in names && l.name in s.pending
                                     && s.pending[l.name].Readable? && s.pending[l.name].item == l.item
    decreases |names|
  {
    if names == [] then (s, [])
    else if names[0] !in s.pending then LeaseNames(s, names[1..])
    else
      match s.pending[names[0]]
      case Torn(_) =>
        LeaseNames(Record(MoveOut(s, Pending, names[0], Quarantine, "corrupt"), "corrupt", 1), names[1..])
      case Readable(it, _) =>
        var r := LeaseNames(s, names[1..]);
        (r.0, [Leased(Pending, names[0], it)] + r.1)
  }

  lemma {:induction false} LeaseAtMost(s: Store, names: seq<string>)
    ensures |LeaseNames(s, names).1| <= |names|
    decreases |names|
  {
    if names != [] {
      if names[0] in s.pending && s.pending[names[0]].Torn? {
        LeaseAtMost(Record(MoveOut(s, Pending, names[0], Quarantine, "corrupt"), "corrupt", 1), names[1..]);
      } else {
        LeaseAtMost(s, names[1..]);
      }
    }
  }

  /** Leasing takes the torn files it meets out of pending and touches nothing else there. */
  lemma {:induction false} LeasePending(s: Store, names: seq<string>)
    ensures LeaseNames(s, names).0.pending
            == s.pending - (set n | n in names && n in s.pending && s.pending[n].Torn?)
    decreases |names|
  {
    if names != [] {
      var rest := names[1..];
      assert names == [names[0]] + rest;
      if names[0] in s.pending && s.pending[names[0]].Torn? {
        var s1 := Record(MoveOut(s, Pending, names[0], Quarantine, "corrupt"), "corrupt", 1);
        MoveOutDirs(s, Pending, names[0], Quarantine, "corrupt");
        assert s1.pending == s.pending - {names[0]};
        LeasePending(s1, rest);
      } else {
        LeasePending(s, rest);
      }
    }
  }

  /** What is handed out: every readable file among the names, as it is in pending, and nothing else. */
  lemma {:induction false} LeaseHandsOut(s: Store, names: seq<string>, l: Leased)
    ensures l in LeaseNames(s, names).1
       <==> && l.place == Pending && l.name in names && l.name in s.pending
            && s.pending[l.name] == Readable(l.item, s.pending[l.name].size)
    decreases |names|
  {
    if names != [] {
      var rest := names[1..];
      assert names == [names[0]] + rest;
      if names[0] in s.pending && s.pending[names[0]].Torn? {
        var s1 := Record(MoveOut(s, Pending, names[0], Quarantine, "corrupt"), "corrupt", 1);
        MoveOutDirs(s, Pending, names[0], Quarantine, "corrupt");
        assert s1.pending == s.pending - {names[0]};
        LeaseHandsOut(s1, rest, l);
      } else {
        LeaseHandsOut(s, rest, l);
      }
    }
  }

  lemma LeaseNamesStep(s: Store, names: seq<string>, i: nat)
    requires i < |names|
    ensures LeaseNames(s, names[i..])
         == if names[i] !in s.pending then LeaseNames(s, names[i + 1..])
            else if s.pending[names[i]].Torn? then
              LeaseNames(Record(MoveOut(s, Pending, names[i], Quarantine, "corrupt"), "corrupt", 1), names[i + 1..])
            else
              (LeaseNames(s, names[i + 1..]).0, [Leased(Pending, names[i], s.pending[names[i]].item)]
               + LeaseNames(s, names[i + 1..]).1)
  {
    hide MoveOut, Record;
    assert names[i..][1..] == names[i + 1..];
  }

  lemma LeaseNamesEnd(s: Store)
    ensures LeaseNames(s, []) == (s, [])
  {
  }

  /** At most n names, or all of them when n is not positive. */
  function FirstN(names: seq<string>, n: int): seq<string>
  {
    if n > 0 && |names| > n then names[..n] else names
  }

  function Lease(s: Store, n: int): (Store, seq<Leased>)
  {
    LeaseNames(s, FirstN(Listing(s.pending.Keys), n))
  }

  /** The first half of redriving one file: the reset item is published in pending. */
  function RedrivePublish(s: Store, from: Place, name: string, size: Item -> nat): Store
    requires name in s.At(from) && s.At(from)[name].Readable?
  {
    var it := s.At(from)[name].item.(attempts := 0, undecided := 0);
    s.(pending := s.pending[BaseName(name) := Readable(it, size(it))])
  }

  /** The second half: the source is unlinked. */
  function RedriveRemove(s: Store, from: Place, name: string): Store
  {
    s.With(from, s.At(from) - {name})
  }

  /** A file a redrive takes: it is there and it parses. */
  predicate Redrivable(d: Dir, name: string)
  {
    name in d && d[name].Readable?
  }

  /** redriveFrom for one file; a torn file stays for inspection. */
  function RedriveOne(s: Store, from: Place, name: string, size: Item -> nat): Store
  {
    if name !in s.At(from) || s.At(from)[name].Torn? then s
    else
      var it := s.At(from)[name].item.(attempts := 0, undecided := 0);
      Adjust(RedriveRemove(RedrivePublish(s, from, name, size), from, name), size(it))
  }

  function RedriveNames(s: Store, from: Place, names: seq<string>, size: Item -> nat): Store
    decreases |names|
  {
    if names == [] then s
    else RedriveNames(RedriveOne(s, from, names[0], size), from, names[1..], size)
  }

  /** Stats: pending is measured for real and the measurement becomes the cache. */
  ghost function Measure(s: Store): Store
  {
    s.(pendingBytes := Total(s.pending), pendingMeasured := true)
  }

  // ---------------------------------------------------------------- the cap bound

  /** The cached total, once measured, is short of the real one by at most the growth by rewrites. */
  ghost predicate CacheBounds(s: Store, growth: nat)
  {
    s.pendingMeasured ==> s.pendingBytes >= 0 && Total(s.pending) <= s.pendingBytes + growth
  }

  /** The bytes a rewrite of l adds to the pending directory. */
  ghost function RewriteGrowth(s: Store, l: Leased, size: Item -> nat): nat
  {
    var had := if l.name in s.pending then s.pending[l.name].size else 0;
    if l.place == Pending && size(l.item) > had then size(l.item) - had else 0
  }

  /** What an undecided verdict on l adds by rewriting it. */
  ghost function UndecidedGrowth(s: Store, l: Leased, size: Item -> nat, maxUndecided: nat): nat
  {
    if l.item.undecided + 1 >= maxUndecided then 0
    else RewriteGrowth(s, l.(item := l.item.(undecided := l.item.undecided + 1)), size)
  }

  /** What a failure charged to l adds by rewriting it. */
  ghost function FailGrowth(s: Store, l: Leased, size: Item -> nat, maxAttempts: nat): nat
  {
    if l.item.attempts + 1 >= maxAttempts then 0
    else RewriteGrowth(s, l.(item := l.item.(attempts := l.item.attempts + 1)), size)
  }

  lemma MoveOutKeepsBound(s: Store, growth: nat, name: string, to: Place, tag: string)
    requires CacheBounds(s, growth) && to != Pending
    ensures CacheBounds(MoveOut(s, Pending, name, to, tag), growth)
  {
    if name in s.pending { TotalRemove(s.pending, name); }
  }

  lemma AckKeepsBound(s: Store, growth: nat, l: Leased)
    requires CacheBounds(s, growth)
    ensures CacheBounds(Ack(s, l), growth)
  {
    if l.place == Pending && l.name in s.pending { TotalRemove(s.pending, l.name); }
  }

  lemma RewriteKeepsBound(s: Store, growth: nat, l: Leased, size: Item -> nat)
    requires CacheBounds(s, growth)
    ensures CacheBounds(Rewrite(s, l, size), growth + RewriteGrowth(s, l, size))
  {
    if l.place == Pending { TotalUpdate(s.pending, l.name, Readable(l.item, size(l.item))); }
  }

  lemma RedriveKeepsBound(s: Store, growth: nat, from: Place, name: string, size: Item -> nat)
    requires CacheBounds(s, growth) && from != Pending
    ensures CacheBounds(RedriveOne(s, from, name, size), growth)
  {
    if name in s.At(from) && s.At(from)[name].Readable? {
      var it := s.At(from)[name].item.(attempts := 0, undecided := 0);
      TotalUpdate(s.pending, BaseName(name), Readable(it, size(it)));
    }
  }

  lemma {:induction false} LeaseKeepsBound(s: Store, growth: nat, names: seq<string>)
    requires CacheBounds(s, growth)
    ensures CacheBounds(LeaseNames(s, names).0, growth)
    decreases |names|
  {
    if names != [] {
      if names[0] in s.pending && s.pending[names[0]].Torn? {
        MoveOutKeepsBound(s, growth, names[0], Quarantine, "corrupt");
        LeaseKeepsBound(Record(MoveOut(s, Pending, names[0], Quarantine, "corrupt"), "corrupt", 1), growth, names[1..]);
      } else {
        LeaseKeepsBound(s, growth, names[1..]);
      }
    }
  }

  /** The growth the cap has room for: the tenth of it above the trusted nine, and one byte. */
  function CapSlack(max: nat): nat
  {
    max / 10 + 1
  }

  /**
   * The cap: after an Add that was let through, the bytes really pending fit the
   * cap whenever rewrites grew the files by no more than the slack since the last
   * measurement, and the bound on the cache still holds.
   */
  lemma AddRespectsCap(s: Store, growth: nat, it: Item, ms: nat, size: Item -> nat, max: nat)
    requires CacheBounds(s, growth)
    ensures
      var r := Add(s, it, ms, size, max, true);
      var growth' := if CacheTrusted(s, size(it), max) then growth else 0;
      && CacheBounds(r.store, growth')
      && (r.admitted && growth' <= CapSlack(max) ==> Total(r.store.pending) <= max)
  {
    var c := EnforceCap(s, size(it), max);
    if c.admitted {
      TotalUpdate(c.store.pending, FileName(ms, it.id), Readable(it, size(it)));
    }
  }

  /** Whatever the state and the item, an admitted Add leaves no more than the cap. */
  ghost predicate CapHolds(growth: nat, max: nat)
  {
    forall s: Store, it: Item, ms: nat, size: Item -> nat :: CapKept(s, growth, it, ms, size, max)
  }

  ghost predicate CapKept(s: Store, growth: nat, it: Item, ms: nat, size: Item -> nat, max: nat)
  {
    var r := Add(s, it, ms, size, max, true);
    CacheBounds(s, growth) && r.admitted ==> Total(r.store.pending) <= max
  }

  /** One file the cache knows nothing of, and the largest write the cache lets through. */
  lemma Overfull(n: string, queuedItem: Item, it: Item, ms: nat, growth: nat, max: nat)
    requires max > 0 && growth > CapSlack(max) && n != FileName(ms, it.id)
    ensures
      var s := Store(map[n := Readable(queuedItem, growth)], map[], map[], 0, true, map[]);
      !CapKept(s, growth, it, ms, (x: Item) => (9 * max - 1) / 10, max)
  {
    var inc := (9 * max - 1) / 10;
    var size := (x: Item) => inc;
    var queued: Dir := map[n := Readable(queuedItem, growth)];
    assert Sizes(map[]) == map[];
    TotalUpdate(map[], n, Readable(queuedItem, growth));
    assert map[][n := Readable(queuedItem, growth)] == queued;
    TotalUpdate(queued, FileName(ms, it.id), Readable(it, inc));
    assert size(it) == inc;
  }

  /** The cap holds of every state exactly when the growth is within the slack. */
  lemma CapHoldsExactly(growth: nat, max: nat)
    ensures CapHolds(growth, max) <==> max == 0 || growth <= CapSlack(max)
  {
    if max == 0 || growth <= CapSlack(max) {
      forall s: Store, it: Item, ms: nat, size: Item -> nat ensures CapKept(s, growth, it, ms, size, max) {
        if CacheBounds(s, growth) { AddRespectsCap(s, growth, it, ms, size, max); }
      }
    } else {
      var it := Item("", "", 0, 0, Blank);
      Overfull("", it, it, 0, growth, max);
      assert !CapKept(Store(map["" := Readable(it, growth)], map[], map[], 0, true, map[]), growth, it, 0,
                      (x: Item) => (9 * max - 1) / 10, max);
    }
  }

  // ------------------------------------------------------- the bound over runs

  /** What one process does to its outbox. */
  datatype Op =
    | AddOne(item: Item, ms: nat, diskOk: bool)
    | LeaseSome(n: int)
    | AckOf(lease: Leased)
    | RejectOf(lease: Leased, tag: string)
    | UndecidedOf(lease: Leased)
    | FailOf(lease: Leased)
    | RedriveOf(place: Place, name: string)
    | MeasureAll

  datatype Limits = Limits(maxBytes: nat, maxAttempts: nat, maxUndecided: nat, size: Item -> nat)

  /** The outbox, and the bytes rewrites have added to it since it was last measured. */
  datatype Tracked = Tracked(store: Store, growth: nat)

  predicate Applies(op: Op)
  {
    match op
    case RejectOf(l, _) => l.place == Pending
    case UndecidedOf(l) => l.place == Pending
    case FailOf(l) => l.place == Pending
    case RedriveOf(p, _) => p != Pending
    case _ => true
  }

  ghost function Next(t: Tracked, op: Op, o: Limits): Tracked
  {
    match op
    case AddOne(it, ms, diskOk) =>
      Tracked(Add(t.store, it, ms, o.size, o.maxBytes, diskOk).store,
              if diskOk && !CacheTrusted(t.store, o.size(it), o.maxBytes) then 0 else t.growth)
    case LeaseSome(n) => t.(store := Lease(t.store, n).0)
    case AckOf(l) => t.(store := Ack(t.store, l))
    case RejectOf(l, tag) => t.(store := Reject(t.store, l, tag))
    case UndecidedOf(l) =>
      Tracked(Undecided(t.store, l, o.size, o.maxUndecided),
              t.growth + UndecidedGrowth(t.store, l, o.size, o.maxUndecided))
    case FailOf(l) =>
      Tracked(Fail(t.store, l, o.size, o.maxAttempts), t.growth + FailGrowth(t.store, l, o.size, o.maxAttempts))
    case RedriveOf(p, n) => t.(store := RedriveOne(t.store, p, n, o.size))
    case MeasureAll => Tracked(Measure(t.store), 0)
  }

  lemma NextKeepsBound(t: Tracked, op: Op, o: Limits)
    requires CacheBounds(t.store, t.growth) && Applies(op)
    ensures var t' := Next(t, op, o); CacheBounds(t'.store, t'.growth)
  {
    match op
    case AddOne(it, ms, diskOk) => if diskOk { AddRespectsCap(t.store, t.growth, it, ms, o.size, o.maxBytes); }
    case LeaseSome(n) => LeaseKeepsBound(t.store, t.growth, FirstN(Listing(t.store.pending.Keys), n));
    case AckOf(l) => AckKeepsBound(t.store, t.growth, l);
    case RejectOf(l, tag) =>
      MoveOutKeepsBound(Record(t.store, "rejected:" + tag, 1), t.growth, l.name, Quarantine, "rejected-" + tag);
    case UndecidedOf(l) => UndecidedKeepsBound(t.store, t.growth, l, o.size, o.maxUndecided);
    case FailOf(l) => FailKeepsBound(t.store, t.growth, l, o.size, o.maxAttempts);
    case RedriveOf(p, n) => RedriveKeepsBound(t.store, t.growth, p, n, o.size);
    case MeasureAll =>
  }

  lemma UndecidedKeepsBound(s: Store, growth: nat, l: Leased, size: Item -> nat, max: nat)
    requires CacheBounds(s, growth) && l.place == Pending
    ensures CacheBounds(Undecided(s, l, size, max), growth + UndecidedGrowth(s, l, size, max))
  {
    if l.item.undecided + 1 >= max {
      MoveOutKeepsBound(Record(s, "parked", 1), growth, l.name, Parked, "");
    } else {
      RewriteKeepsBound(s, growth, l.(item := l.item.(undecided := l.item.undecided + 1)), size);
    }
  }

  lemma FailKeepsBound(s: Store, growth: nat, l: Leased, size: Item -> nat, max: nat)
    requires CacheBounds(s, growth) && l.place == Pending
    ensures CacheBounds(Fail(s, l, size, max), growth + FailGrowth(s, l, size, max))
  {
    if l.item.attempts + 1 >= max {
      MoveOutKeepsBound(Record(s, "max_attempts", 1), growth, l.name, Quarantine, "max_attempts");
    } else {
      RewriteKeepsBound(s, growth, l.(item := l.item.(attempts := l.item.attempts + 1)), size);
    }
  }

  ghost function After(t: Tracked, ops: seq<Op>, o: Limits): Tracked
  {
    if ops == [] then t else Next(After(t, ops[..|ops| - 1], o), ops[|ops| - 1], o)
  }

  const EMPTY := Tracked(Store(map[], map[], map[], 0, false, map[]), 0)

  lemma {:induction false} RunKeepsBound(ops: seq<Op>, o: Limits)
    requires forall op :: op in ops ==> Applies(op)
    ensures var t := After(EMPTY, ops, o); CacheBounds(t.store, t.growth)
  {
    if ops != [] {
      RunKeepsBound(ops[..|ops| - 1], o);
      NextKeepsBound(After(EMPTY, ops[..|ops| - 1], o), ops[|ops| - 1], o);
    }
  }

  /**
   * Over every run of one process from an empty outbox: real pending bytes are within the
   * cached total plus what rewrites added since it was last measured, and an admitted Add
   * that leaves this growth within the slack leaves no more than the cap.
   */
  lemma CapOverRuns(ops: seq<Op>, it: Item, ms: nat, o: Limits)
    requires forall op :: op in ops ==> Applies(op)
    ensures
      var t := After(EMPTY, ops, o);
      var r := Add(t.store, it, ms, o.size, o.maxBytes, true);
      var growth := Next(t, AddOne(it, ms, true), o).growth;
      && (t.store.pendingMeasured ==> Total(t.store.pending) <= t.store.pendingBytes + t.growth)
      && (r.admitted && growth <= CapSlack(o.maxBytes) ==> Total(r.store.pending) <= o.maxBytes)
  {
    RunKeepsBound(ops, o);
    var t := After(EMPTY, ops, o);
    AddRespectsCap(t.store, t.growth, it, ms, o.size, o.maxBytes);
  }

  // ------------------------------------------------------- counting a redrive

  function RedriveCount(d: Dir, names: seq<string>): nat
  {
    if names == [] then 0
    else RedriveCount(d, names[..|names| - 1]) + if Redrivable(d, names[|names| - 1]) then 1 else 0
  }

  /** The files of the directory not yet redriven are as they were. */
  ghost predicate LeftAlone(was: Dir, now: Dir, names: seq<string>, i: nat)
    requires i <= |names|
  {
    forall j :: i <= j < |names| ==>
      (names[j] in now <==> names[j] in was) && (names[j] in now ==> now[names[j]] == was[names[j]])
  }

  lemma RedriveTakesOne(s: Store, from: Place, name: string, size: Item -> nat)
    requires from != Pending
    ensures RedriveOne(s, from, name, size).At(from)
            == if Redrivable(s.At(from), name) then s.At(from) - {name} else s.At(from)
  {
    hide BaseName;
  }

  lemma NextIsLeft(was: Dir, s: Store, from: Place, names: seq<string>, i: nat, size: Item -> nat)
    requires i < |names| && from != Pending && names == Listing(was.Keys) && LeftAlone(was, s.At(from), names, i)
    ensures Redrivable(was, names[i]) <==> Redrivable(s.At(from), names[i])
    ensures LeftAlone(was, RedriveOne(s, from, names[i], size).At(from), names, i + 1)
  {
    ListingSorted(was.Keys);
    SortedNoRepeats(names);
    RedriveTakesOne(s, from, names[i], size);
    hide Listing, RedriveOne, Sorted;
  }

  ghost function Picked(d: Dir, names: seq<string>): set<string>
  {
    set x | x in names && Redrivable(d, x)
  }

  lemma PickedStep(d: Dir, front: seq<string>, last: string)
    ensures Picked(d, front + [last]) == if Redrivable(d, last) then Picked(d, front) + {last} else Picked(d, front)
  {
    hide Redrivable;
  }

  lemma CountStep(d: Dir, front: seq<string>, last: string)
    requires last !in front && RedriveCount(d, front) == |Picked(d, front)|
    ensures RedriveCount(d, front + [last]) == |Picked(d, front + [last])|
  {
    PickedStep(d, front, last);
    assert (front + [last])[..|front|] == front && last !in Picked(d, front);
    hide Picked, Redrivable;
  }

  lemma {:induction false} CountOf(d: Dir, names: seq<string>)
    requires forall i, j :: 0 <= i < j < |names| ==> names[i] != names[j]
    ensures RedriveCount(d, names) == |Picked(d, names)|
  {
    if names != [] {
      var front, last := names[..|names| - 1], names[|names| - 1];
      CountOf(d, front);
      hide Picked, RedriveCount;
      CountStep(d, front, last);
      assert names == front + [last];
    }
  }

  lemma CountIsAll(d: Dir)
    ensures RedriveCount(d, Listing(d.Keys)) == |set x | x in d && Redrivable(d, x)|
  {
    ListingSorted(d.Keys);
    SortedNoRepeats(Listing(d.Keys));
    CountOf(d, Listing(d.Keys));
    hide Listing, RedriveCount, Redrivable;
    assert Picked(d, Listing(d.Keys)) == (set x | x in d && Redrivable(d, x));
  }

  // ------------------------------------------------------------------ the class

  class Outbox {
    const maxBytes: nat
    const maxAttempts: nat
    const maxUndecided: nat
    /** The length of an item's JSON. */
    const size: Item -> nat

    var pending: Dir
    var quarantine: Dir
    var parked: Dir
    var pendingBytes: int
    var pendingMeasured: bool
    var dropped: map<string, nat>
    /** Bytes rewrites have added to pending since it was last measured. */
    ghost var growth: nat

    function Contents(): Store
      reads this
    {
      Store(pending, quarantine, parked, pendingBytes, pendingMeasured, dropped)
    }

    ghost predicate Valid()
      reads this
    {
      CacheBounds(Contents(), growth)
    }

    constructor (maxBytes: nat, maxAttempts: nat, maxUndecided: nat, size: Item -> nat)
      ensures Valid()
      ensures Contents() == Store(map[], map[], map[], 0, false, map[])
      ensures this.maxBytes == maxBytes && this.maxAttempts == maxAttempts
      ensures this.maxUndecided == maxUndecided && this.size == size && growth == 0
    {
      this.maxBytes, this.maxAttempts, this.maxUndecided := maxBytes, maxAttempts, maxUndecided;
      this.size := size;
      pending, quarantine, parked := map[], map[], map[];
      pendingBytes, pendingMeasured, dropped := 0, false, map[];
      growth := 0;
    }

    method RecordDrop(reason: string, n: nat)
      modifies this`dropped
      ensures Contents() == Record(old(Contents()), reason, n)
    {
      if n > 0 {
        var had := if reason in dropped then dropped[reason] else 0;
        dropped := dropped[reason := had + n];
      }
    }

    method AdjustPendingBytes(delta: int)
      modifies this`pendingBytes
      ensures Contents() == Adjust(old(Contents()), delta)
    {
      if delta == 0 { return; }
      pendingBytes := pendingBytes + delta;
      if pendingBytes < 0 { pendingBytes := 0; }
    }

    method MeasureDir() returns (total: nat)
      ensures total == Total(pending)
    {
      var left := pending;
      total := 0;
      while left != map[]
        invariant left.Keys <= pending.Keys && forall n :: n in left ==> left[n] == pending[n]
        invariant total + Total(left) == Total(pending)
        decreases |left|
      {
        var name :| name in left;
        TotalRemove(left, name);
        total := total + left[name].size;
        left := left - {name};
      }
      assert Sizes(left) == map[];
    }

    /** The eviction loop of enforceCap: oldest first, until the write fits or nothing is left. */
    method EvictOldest(names: seq<string>, measured: nat, incoming: nat) returns (k: nat, total: nat)
      requires Sorted(names) && (forall n :: n in names ==> n in pending) && measured == Total(pending)
      modifies this`pending, this`dropped
      ensures k == EvictCount(old(pending), names, incoming, maxBytes)
      ensures pending == Without(old(pending), names[..k]) && total == Total(pending)
      ensures dropped == Counted(old(dropped), "queue_overflow", k)
    {
      total, k := measured, 0;
      assert Without(pending, names[..0]) == pending && names[0..] == names;
      hide EvictCount, Without, Total;
      while total + incoming > maxBytes && k < |names|
        invariant 0 <= k <= |names|
        invariant pending == Without(old(pending), names[..k]) && total == Total(pending)
        invariant EvictCount(old(pending), names, incoming, maxBytes)
                  == k + EvictCount(pending, names[k..], incoming, maxBytes)
        invariant dropped == Counted(old(dropped), "queue_overflow", k)
      {
        EvictStep(old(pending), names, k, incoming, maxBytes);
        total := total - pending[names[k]].size;
        pending := pending - {names[k]};
        CountedOneMore(old(dropped), "queue_overflow", k);
        RecordDrop("queue_overflow", 1);
        k := k + 1;
      }
    }

    /** The scanning half of enforceCap. */
    method ScanCapacity(incoming: nat) returns (ok: bool, ghost evicted: seq<string>)
      modifies this
      ensures CapResult(Contents(), ok, evicted) == ScanCap(old(Contents()), incoming, maxBytes)
      ensures growth == 0
    {
      hide EvictCount, Counted, Without, Total;
      var names := Listing(pending.Keys);
      ListingSorted(pending.Keys);
      var measured := MeasureDir();
      var k, total := EvictOldest(names, measured, incoming);
      evicted := names[..k];
      pendingBytes, pendingMeasured := total, true;
      growth := 0;
      ok := total + incoming <= maxBytes;
      if !ok { RecordDrop("queue_overflow", 1); }
    }

    /** enforceCap: drops the oldest pending items until the incoming write fits. */
    method EnforceCapacity(incoming: nat) returns (ok: bool, ghost evicted: seq<string>)
      requires Valid()
      modifies this
      ensures Valid()
      ensures CapResult(Contents(), ok, evicted) == EnforceCap(old(Contents()), incoming, maxBytes)
      ensures growth == if CacheTrusted(old(Contents()), incoming, maxBytes) then old(growth) else 0
    {
      if pendingMeasured && pendingBytes >= 0 && 10 * (pendingBytes + incoming) < 9 * maxBytes {
        return true, [];
      }
      ok, evicted := ScanCapacity(incoming);
    }

    /** Add: the outcome is the specification's, the bound holds, and an admitted write leaves room. */
    method AddItem(it: Item, ms: nat, diskOk: bool) returns (ok: bool, ghost evicted: seq<string>)
      requires Valid()
      modifies this
      ensures Valid()
      ensures CapResult(Contents(), ok, evicted) == Add(old(Contents()), it, ms, size, maxBytes, diskOk)
      ensures growth == if diskOk && !CacheTrusted(old(Contents()), size(it), maxBytes) then 0 else old(growth)
      ensures ok && growth <= CapSlack(maxBytes) ==> Total(pending) <= maxBytes
    {
      if diskOk { AddRespectsCap(Contents(), growth, it, ms, size, maxBytes); }
      if !diskOk {
        RecordDrop("disk_full", 1);
        return false, [];
      }
      ok, evicted := EnforceCapacity(size(it));
      if ok {
        pending := pending[FileName(ms, it.id) := Readable(it, size(it))];
        AdjustPendingBytes(size(it));
      }
    }

    method MoveFile(from: Place, name: string, to: Place, tag: string)
      modifies this
      ensures Contents() == MoveOut(old(Contents()), from, name, to, tag) && growth == old(growth)
    {
      hide MovedName;
      if name !in Contents().At(from) { return; }
      var f := Contents().At(from)[name];
      SetDir(from, Contents().At(from) - {name});
      SetDir(to, Contents().At(to)[MovedName(name, tag) := f]);
      AdjustPendingBytes(0 - f.size);
    }

    method SetDir(place: Place, dir: Dir)
      modifies this`pending, this`quarantine, this`parked
      ensures Contents() == old(Contents()).With(place, dir)
    {
      match place {
        case Pending => pending := dir;
        case Quarantine => quarantine := dir;
        case Parked => parked := dir;
      }
    }

    method WriteBack(l: Leased)
      requires Valid() && l.place == Pending
      modifies this
      ensures Valid()
      ensures Contents() == Rewrite(old(Contents()), l, size)
      ensures growth == old(growth) + RewriteGrowth(old(Contents()), l, size)
    {
      RewriteKeepsBound(Contents(), growth, l, size);
      growth := growth + RewriteGrowth(Contents(), l, size);
      pending := pending[l.name := Readable(l.item, size(l.item))];
    }

    method AckItem(l: Leased)
      requires Valid()
      modifies this
      ensures Valid() && growth == old(growth)
      ensures Contents() == Ack(old(Contents()), l)
    {
      AckKeepsBound(Contents(), growth, l);
      match l.place {
        case Pending =>
          if l.name in pending {
            var bytes: int := pending[l.name].size;
            pending := pending - {l.name};
            AdjustPendingBytes(0 - bytes);
          }
        case Quarantine => quarantine := quarantine - {l.name};
        case Parked => parked := parked - {l.name};
      }
    }

    method QuarantineItem(l: Leased, tag: string)
      requires Valid() && l.place == Pending
      modifies this
      ensures Valid() && growth == old(growth)
      ensures Contents() == Reject(old(Contents()), l, tag)
    {
      MoveOutKeepsBound(Record(Contents(), "rejected:" + tag, 1), growth, l.name, Quarantine, "rejected-" + tag);
      RecordDrop("rejected:" + tag, 1);
      MoveFile(l.place, l.name, Quarantine, "rejected-" + tag);
    }

    method UndecidedItem(l: Leased) returns (wasParked: bool)
      requires Valid() && l.place == Pending
      modifies this
      ensures Valid()
      ensures growth == old(growth) + UndecidedGrowth(old(Contents()), l, size, maxUndecided)
      ensures wasParked == (l.item.undecided + 1 >= maxUndecided)
      ensures Contents() == Undecided(old(Contents()), l, size, maxUndecided)
    {
      var n := l.item.undecided + 1;
      if n >= maxUndecided {
        MoveOutKeepsBound(Record(Contents(), "parked", 1), growth, l.name, Parked, "");
        RecordDrop("parked", 1);
        MoveFile(l.place, l.name, Parked, "");
        return true;
      }
      WriteBack(l.(item := l.item.(undecided := n)));
      return false;
    }

    method FailItem(l: Leased)
      requires Valid() && l.place == Pending
      modifies this
      ensures Valid()
      ensures growth == old(growth) + FailGrowth(old(Contents()), l, size, maxAttempts)
      ensures Contents() == Fail(old(Contents()), l, size, maxAttempts)
    {
      var n := l.item.attempts + 1;
      if n >= maxAttempts {
        MoveOutKeepsBound(Record(Contents(), "max_attempts", 1), growth, l.name, Quarantine, "max_attempts");
        RecordDrop("max_attempts", 1);
        MoveFile(l.place, l.name, Quarantine, "max_attempts");
      } else {
        WriteBack(l.(item := l.item.(attempts := n)));
      }
    }

    /** Lease: up to n of the oldest items; torn ones are quarantined on the way. */
    method LeaseBatch(n: int) returns (batch: seq<Leased>)
      requires Valid()
      modifies this
      ensures Valid() && growth == old(growth)
      ensures (Contents(), batch) == Lease(old(Contents()), n)
    {
      hide Listing, MovedName, MoveOut, CacheBounds, LeaseNames;
      var names := FirstN(Listing(pending.Keys), n);
      LeaseKeepsBound(Contents(), growth, names);
      batch := [];
      var i := 0;
      assert names[0..] == names && [] + LeaseNames(Contents(), names).1 == LeaseNames(Contents(), names).1;
      while i < |names|
        invariant 0 <= i <= |names|
        invariant growth == old(growth)
        invariant LeaseNames(old(Contents()), names)
                  == (var r := LeaseNames(Contents(), names[i..]); (r.0, batch + r.1))
      {
        LeaseNamesStep(Contents(), names, i);
        if names[i] in pending {
          match pending[names[i]] {
            case Torn(_) =>
              MoveFile(Pending, names[i], Quarantine, "corrupt");
              RecordDrop("corrupt", 1);
            case Readable(it, _) =>
              ghost var r := LeaseNames(Contents(), names[i + 1..]);
              assert batch + ([Leased(Pending, names[i], it)] + r.1) == batch + [Leased(Pending, names[i], it)] + r.1;
              batch := batch + [Leased(Pending, names[i], it)];
          }
        }
        i := i + 1;
      }
      LeaseNamesEnd(Contents());
      assert names[i..] == [] && batch + [] == batch;
    }

    /** One file of a redrive: published in pending with its counters reset, then unlinked. */
    method RedriveFile(from: Place, name: string) returns (moved: bool)
      requires Valid() && from != Pending
      modifies this
      ensures Valid() && growth == old(growth)
      ensures Contents() == RedriveOne(old(Contents()), from, name, size)
      ensures moved <==> Redrivable(old(Contents()).At(from), name)
    {
      RedriveKeepsBound(Contents(), growth, from, name, size);
      var dir := Contents().At(from);
      if name !in dir || dir[name].Torn? { return false; }
      var it := dir[name].item.(attempts := 0, undecided := 0);
      pending := pending[BaseName(name) := Readable(it, size(it))];
      if from == Quarantine { quarantine := quarantine - {name}; } else { parked := parked - {name}; }
      AdjustPendingBytes(size(it));
      return true;
    }

    /** redriveFrom: every readable file of a directory goes back to pending with its counters reset. */
    method RedriveFrom(from: Place) returns (n: nat)
      requires Valid() && from != Pending
      modifies this
      ensures Valid() && growth == old(growth)
      ensures Contents() == RedriveNames(old(Contents()), from, Listing(old(Contents()).At(from).Keys), size)
      ensures n == |set x | x in old(Contents()).At(from) && Redrivable(old(Contents()).At(from), x)|
    {
      hide Listing, RedriveOne, Redrivable, CacheBounds;
      ghost var dir := Contents().At(from);
      var names := Listing(Contents().At(from).Keys);
      n := 0;
      var i := 0;
      assert names[0..] == names;
      while i < |names|
        invariant 0 <= i <= |names|
        invariant Valid() && growth == old(growth)
        invariant RedriveNames(old(Contents()), from, names, size)
                  == RedriveNames(Contents(), from, names[i..], size)
        invariant LeftAlone(dir, Contents().At(from), names, i)
        invariant n == RedriveCount(dir, names[..i])
      {
        assert names[i..][1..] == names[i + 1..] && names[..i + 1][..i] == names[..i];
        NextIsLeft(dir, Contents(), from, names, i, size);
        var moved := RedriveFile(from, names[i]);
        if moved { n := n + 1; }
        i := i + 1;
      }
      assert names[..i] == names;
      CountIsAll(dir);
    }

    method Stats() returns (count: nat, bytes: nat)
      modifies this
      ensures Valid() && growth == 0
      ensures Contents() == Measure(old(Contents()))
      ensures count == |pending| && bytes == Total(pending)
    {
      bytes := MeasureDir();
      count := |pending|;
      pendingBytes, pendingMeasured := bytes, true;
      growth := 0;
    }
  }
}
