/** The daemon of a session and the passes that close sessions others left open, over the directory of state files. */
module Daemons {
  import opened Events
  import opened Names

  datatype State = State(
    sessionId: string,
    ownerPid: nat,
    daemonPid: nat,
    build: string,
    heartbeat: Time,
    finalized: bool,
    endedAt: Time,
    endReason: string,
    recovered: nat)

  const STALE_AFTER: nat := 120_000_000_000

  /** The pid exists and its heartbeat is fresh: a live pid with a stale heartbeat is somebody else's. */
  predicate StillLive(st: State, alive: nat -> bool, now: Time, staleAfter: nat)
  {
    st.daemonPid > 0 && alive(st.daemonPid) && now - st.heartbeat <= staleAfter
  }

  predicate AlreadyRunning(st: State, alive: nat -> bool, now: Time, staleAfter: nat)
  {
    !st.finalized && StillLive(st, alive, now, staleAfter)
  }

  function Closed(st: State, reason: string, now: Time): State
  {
    st.(finalized := true, endedAt := now, endReason := reason)
  }

  /** What one file becomes under the reconciler: only a session whose daemon and owner are both gone is closed. */
  function Reconciled(st: State, alive: nat -> bool, now: Time, staleAfter: nat, recover: State -> nat): State
  {
    if st.finalized || StillLive(st, alive, now, staleAfter) || alive(st.ownerPid) then st
    else Closed(st.(recovered := recover(st)), "daemon_died", now)
  }

  /** A session the reconciler reports: closed now, or its daemon dead under a live owner. */
  predicate Abandoned(st: State, alive: nat -> bool, now: Time, staleAfter: nat)
  {
    !st.finalized && !StillLive(st, alive, now, staleAfter)
  }

  function AbandonedIn(files: map<string, State>, names: seq<string>, alive: nat -> bool, now: Time, staleAfter: nat)
    : seq<string>
    requires forall n :: n in names ==> n in files
  {
    if names == [] then []
    else
      var k := |names| - 1;
      AbandonedIn(files, names[..k], alive, now, staleAfter)
      + if Abandoned(files[names[k]], alive, now, staleAfter) then [names[k]] else []
  }

  /** What the reaper knows of the machine: its own build and pid, and a session it must not touch. */
  datatype Reaper = Reaper(build: string, self: nat, selfSession: string)

  predicate Spared(r: Reaper, st: State)
  {
    || st.finalized || st.daemonPid == 0 || st.daemonPid == r.self
    || (r.selfSession != "" && st.sessionId == r.selfSession)
  }

  predicate Live(st: State, alive: nat -> bool, held: string -> bool, now: Time)
  {
    held(st.sessionId) || StillLive(st, alive, now, STALE_AFTER)
  }

  /** What one file becomes under the reaper; kills says whether the signal could be sent. */
  function Reaped(r: Reaper, st: State, alive: nat -> bool, held: string -> bool, kills: nat -> bool, now: Time): State
  {
    var live, current := Live(st, alive, held, now), st.build == r.build;
    if Spared(r, st) || (live && current) || (live && !kills(st.daemonPid)) || (!live && !alive(st.ownerPid)) then st
    else Closed(st, if !live && current then "daemon_died" else "daemon_stale", now)
  }

  /** The daemon is live on another build. */
  predicate Signals(r: Reaper, st: State, alive: nat -> bool, held: string -> bool, now: Time)
  {
    !Spared(r, st) && Live(st, alive, held, now) && st.build != r.build
  }

  function Signalled(r: Reaper, files: map<string, State>, names: seq<string>, alive: nat -> bool,
                     held: string -> bool, now: Time): seq<nat>
    requires forall n :: n in names ==> n in files
  {
    if names == [] then []
    else
      var k := |names| - 1;
      var st := files[names[k]];
      Signalled(r, files, names[..k], alive, held, now)
      + if Signals(r, st, alive, held, now) then [st.daemonPid] else []
  }

  /** The body of the reconciler's loop, over one state. */
  method CloseAbandoned(st: State, alive: nat -> bool, now: Time, staleAfter: nat, recover: State -> nat)
    returns (after: State, reported: bool)
    ensures after == Reconciled(st, alive, now, staleAfter, recover)
            && reported == Abandoned(st, alive, now, staleAfter)
  {
    after, reported := st, false;
    if st.finalized { return; }
    if StillLive(st, alive, now, staleAfter) { return; }
    reported := true;
    if alive(st.ownerPid) { return; }
    after := after.(recovered := recover(st));
    after := after.(finalized := true, endedAt := now, endReason := "daemon_died");
  }

  /** The body of the reaper's loop. */
  method CloseStale(r: Reaper, st: State, alive: nat -> bool, held: string -> bool, kills: nat -> bool, now: Time)
    returns (after: State, signalled: bool)
    ensures after == Reaped(r, st, alive, held, kills, now) && signalled == Signals(r, st, alive, held, now)
    ensures after.daemonPid == st.daemonPid
  {
    after, signalled := st, false;
    if st.finalized || st.daemonPid == 0 || st.daemonPid == r.self { return; }
    if r.selfSession != "" && st.sessionId == r.selfSession { return; }
    var current := st.build == r.build;
    var live := held(st.sessionId) || StillLive(st, alive, now, STALE_AFTER);
    var reason := "daemon_stale";
    if live && current { return; }
    if live {
      signalled := true;
      if !kills(st.daemonPid) { return; }
    } else if !alive(st.ownerPid) {
      return;
    } else if current {
      reason := "daemon_died";
    }
    after := after.(finalized := true, endedAt := now, endReason := reason);
  }

  class Directory {
    var files: map<string, State>

    constructor ()
      ensures files == map[]
    {
      files := map[];
    }

    /** ReconcileWith: every file by itself, the abandoned sessions in name order. */
    method Reconcile(alive: nat -> bool, now: Time, staleAfter: nat, recover: State -> nat)
      returns (abandoned: seq<string>)
      modifies this
      ensures files == Each(old(files), st => Reconciled(st, alive, now, staleAfter, recover))
      ensures abandoned == AbandonedIn(old(files), Listing(old(files).Keys), alive, now, staleAfter)
    {
      hide Reconciled, Abandoned, Listing, AbandonedIn, Applied, Each;
      var names := Listing(files.Keys);
      ghost var was := files;
      ghost var f := (st: State) => Reconciled(st, alive, now, staleAfter, recover);
      AppliedToAll(was, f);
      AbandonedNone(was, alive, now, staleAfter);
      AppliedNone(was, f);
      abandoned := [];
      for i := 0 to |names|
        invariant files == Applied(was, names[..i], f)
        invariant abandoned == AbandonedIn(was, names[..i], alive, now, staleAfter)
      {
        NotYet(was, i, f);
        AbandonedStep(was, names, i, alive, now, staleAfter);
        var st, reported := CloseAbandoned(files[names[i]], alive, now, staleAfter, recover);
        if reported { abandoned := abandoned + [names[i]]; }
        files := files[names[i] := st];
      }
      assert names[..|names|] == names;
    }

    /** StopStale: daemons of another build are signalled, and what is not this build's live daemon is closed. */
    method StopStale(r: Reaper, alive: nat -> bool, held: string -> bool, kills: nat -> bool, now: Time)
      returns (signalled: seq<nat>)
      modifies this
      ensures files == Each(old(files), st => Reaped(r, st, alive, held, kills, now))
      ensures signalled == Signalled(r, old(files), Listing(old(files).Keys), alive, held, now)
    {
      hide Reaped, Signals, Listing, Signalled, Applied, Each;
      var names := Listing(files.Keys);
      ghost var was := files;
      ghost var f := (st: State) => Reaped(r, st, alive, held, kills, now);
      AppliedToAll(was, f);
      SignalledNone(r, was, alive, held, now);
      AppliedNone(was, f);
      signalled := [];
      for i := 0 to |names|
        invariant files == Applied(was, names[..i], f)
        invariant signalled == Signalled(r, was, names[..i], alive, held, now)
      {
        NotYet(was, i, f);
        SignalledStep(r, was, names, i, alive, held, now);
        var st, signal := CloseStale(r, files[names[i]], alive, held, kills, now);
        if signal { signalled := signalled + [st.daemonPid]; }
        files := files[names[i] := st];
      }
      assert names[..|names|] == names;
    }
  }

  /** Every file rewritten by itself. */
  function Each(files: map<string, State>, f: State -> State): map<string, State>
  {
    map n | n in files :: f(files[n])
  }

  /** The files after the named ones have been rewritten in turn. */
  ghost function Applied(files: map<string, State>, names: seq<string>, f: State -> State): map<string, State>
    requires forall n :: n in names ==> n in files
  {
    if names == [] then files
    else var k := |names| - 1; Applied(files, names[..k], f)[names[k] := f(files[names[k]])]
  }

  lemma {:induction false} AppliedIs(files: map<string, State>, names: seq<string>, f: State -> State)
    requires forall n :: n in names ==> n in files
    ensures Applied(files, names, f) == map n | n in files :: if n in names then f(files[n]) else files[n]
  {
    if names != [] {
      var k := |names| - 1;
      AppliedIs(files, names[..k], f);
      assert names == names[..k] + [names[k]];
    }
  }

  lemma AppliedToAll(files: map<string, State>, f: State -> State)
    ensures Applied(files, Listing(files.Keys), f) == Each(files, f)
  {
    AppliedIs(files, Listing(files.Keys), f);
  }

  lemma AppliedNone(files: map<string, State>, f: State -> State)
    ensures Applied(files, [], f) == files
  {
  }

  lemma AbandonedNone(files: map<string, State>, alive: nat -> bool, now: Time, staleAfter: nat)
    ensures AbandonedIn(files, [], alive, now, staleAfter) == []
  {
  }

  lemma AbandonedStep(files: map<string, State>, names: seq<string>, i: nat, alive: nat -> bool, now: Time,
                      staleAfter: nat)
    requires i < |names| && forall n :: n in names ==> n in files
    ensures AbandonedIn(files, names[..i + 1], alive, now, staleAfter)
         == AbandonedIn(files, names[..i], alive, now, staleAfter)
            + if Abandoned(files[names[i]], alive, now, staleAfter) then [names[i]] else []
  {
    hide Abandoned;
    assert names[..i + 1][..i] == names[..i];
  }

  lemma SignalledNone(r: Reaper, files: map<string, State>, alive: nat -> bool, held: string -> bool, now: Time)
    ensures Signalled(r, files, [], alive, held, now) == []
  {
  }

  lemma SignalledStep(r: Reaper, files: map<string, State>, names: seq<string>, i: nat, alive: nat -> bool,
                      held: string -> bool, now: Time)
    requires i < |names| && forall n :: n in names ==> n in files
    ensures Signalled(r, files, names[..i + 1], alive, held, now)
         == Signalled(r, files, names[..i], alive, held, now)
            + if Signals(r, files[names[i]], alive, held, now) then [files[names[i]].daemonPid] else []
  {
    hide Signals;
    assert names[..i + 1][..i] == names[..i];
  }

  lemma ListedOnce(keys: set<string>, i: nat)
    requires i < |Listing(keys)|
    ensures Listing(keys)[i] !in Listing(keys)[..i]
  {
    hide Listing, Sorted;
    ListingSorted(keys);
    SortedNoRepeats(Listing(keys));
  }

  lemma AppliedNext(files: map<string, State>, names: seq<string>, n: string, f: State -> State)
    requires n !in names && n in files && forall x :: x in names ==> x in files
    ensures n in Applied(files, names, f) && Applied(files, names, f)[n] == files[n]
    ensures Applied(files, names + [n], f) == Applied(files, names, f)[n := f(files[n])]
  {
    AppliedIs(files, names, f);
    assert (names + [n])[..|names|] == names;
  }

  /** The next file in the listing has not been rewritten yet: no name is listed twice. */
  lemma NotYet(files: map<string, State>, i: nat, f: State -> State)
    requires i < |Listing(files.Keys)|
    ensures var names := Listing(files.Keys);
            && names[i] in files
            && names[i] in Applied(files, names[..i], f) && Applied(files, names[..i], f)[names[i]] == files[names[i]]
            && Applied(files, names[..i + 1], f) == Applied(files, names[..i], f)[names[i] := f(files[names[i]])]
  {
    hide Listing, Applied;
    var names := Listing(files.Keys);
    ListedOnce(files.Keys, i);
    assert names[i] in names;
    AppliedNext(files, names[..i], names[i], f);
    assert names[..i + 1] == names[..i] + [names[i]];
  }

  class Daemon {
    const dir: Directory
    const path: string
    var state: State

    /** New claims the session by writing its state, over whatever was there. */
    constructor (dir: Directory, path: string, session: string, owner: nat, pid: nat, build: string, now: Time)
      modifies dir
      ensures this.dir == dir && this.path == path
      ensures state == State(session, owner, pid, build, now, false, ZERO_TIME, "", 0)
      ensures dir.files == old(dir.files)[path := state]
    {
      this.dir, this.path := dir, path;
      state := State(session, owner, pid, build, now, false, ZERO_TIME, "", 0);
      new;
      dir.files := dir.files[path := state];
    }

    /** A heartbeat does not write the live state back over one finalized under this pid. */
    method Beat(now: Time)
      modifies this`state, dir
      ensures state == old(state).(heartbeat := now)
      ensures var on := old(dir.files);
              dir.files
              == if path in on && on[path].finalized && on[path].daemonPid == state.daemonPid then on
                 else on[path := state]
    {
      state := state.(heartbeat := now);
      if path in dir.files && dir.files[path].finalized && dir.files[path].daemonPid == state.daemonPid { return; }
      dir.files := dir.files[path := state];
    }

    method Finalize(reason: string, now: Time)
      modifies this`state, dir
      ensures state == Closed(old(state), reason, now) && dir.files == old(dir.files)[path := state]
    {
      state := state.(finalized := true);
      state := state.(endedAt := now);
      state := state.(endReason := reason);
      dir.files := dir.files[path := state];
    }
  }

  /** Reconciling again at the same moment changes nothing and closes nothing twice. */
  lemma ReconcileIdempotent(st: State, alive: nat -> bool, now: Time, staleAfter: nat, recover: State -> nat)
    ensures var once := Reconciled(st, alive, now, staleAfter, recover);
            && Reconciled(once, alive, now, staleAfter, recover) == once
            && (once != st <==> Abandoned(st, alive, now, staleAfter) && !alive(st.ownerPid))
            && !(once != st && AlreadyRunning(st, alive, now, staleAfter))
  {
  }

  /**
   * Between them the two passes, in either order, leave open exactly the sessions the reaper may
   * touch that are live on this build, or live on another that could not be signalled. The lock
   * speaks for a daemon with a stale heartbeat only while its owner lives: the reconciler, which
   * does not ask for the lock, closes the session under it once the owner is gone.
   */
  lemma PassesCloseTheRest(r: Reaper, st: State, alive: nat -> bool, held: string -> bool, kills: nat -> bool,
                           now: Time, recover: State -> nat)
    requires !st.finalized && !Spared(r, st)
    ensures
      var reconciledFirst := Reaped(r, Reconciled(st, alive, now, STALE_AFTER, recover), alive, held, kills, now);
      var reapedFirst := Reconciled(Reaped(r, st, alive, held, kills, now), alive, now, STALE_AFTER, recover);
      && (reconciledFirst.finalized <==> reapedFirst.finalized)
      && (!reconciledFirst.finalized
          <==> (StillLive(st, alive, now, STALE_AFTER) || (held(st.sessionId) && alive(st.ownerPid)))
               && (st.build == r.build || !kills(st.daemonPid)))
  {
  }

  /** How many cycles the shutdown drain runs against a server that would move these many items in turn. */
  method DrainBacklog(sent: seq<nat>, deadline: nat) returns (cycles: nat)
    ensures cycles <= 1000 && cycles <= deadline && cycles <= |sent|
    ensures forall i :: 0 <= i < cycles - 1 ==> sent[i] > 0
    ensures cycles < 1000 && cycles < deadline && cycles < |sent| ==> cycles > 0 && sent[cycles - 1] == 0
  {
    cycles := 0;
    while cycles < 1000 && cycles < |sent|
      invariant cycles <= 1000 && cycles <= deadline && cycles <= |sent|
      invariant forall i :: 0 <= i < cycles ==> sent[i] > 0
    {
      if cycles >= deadline { return; }
      cycles := cycles + 1;
      if sent[cycles - 1] == 0 { return; }
    }
  }
}
