/**
 * One session's daemon protocol: the claim, the state file and everyone who writes it -
 * daemons starting, beating and ending, the reaper of stale builds and the reconciler.
 */
module DaemonState {
  import opened Events

  /** One life of a daemon process. An upgrade in place starts a new life under the old pid. */
  type Life = nat

  /** The state file. life is the daemon it describes; the file itself has only the pid. */
  datatype File = File(life: Life, pid: nat, build: string, finalized: bool)

  datatype Stage =
    | Started
    | Claimed
    | Running
    /** Signalled: it drains and exits, and a last poll may still beat. */
    | Cancelled
    /** It wrote its own end. */
    | Ended
    | Gone

  datatype Daemon = Daemon(pid: nat, build: string, stage: Stage) {
    predicate HasClaim() { stage in {Claimed, Running, Cancelled, Ended} }
    predicate Beats() { stage == Running || stage == Cancelled }
  }

  datatype Lock = Free | HeldBy(life: Life) | Probed(closer: nat)

  /** Whoever closes other processes' sessions: the reaper of StopStale, or the reconciler. */
  datatype Closer =
    /** The state was read. */
    | Loaded(file: File, build: string)
    /** The reaper is trying the session lock. */
    | Trying(file: File, build: string)
    | Tried(file: File, build: string, held: bool)
    /** It will write the state back as finalized. */
    | Judged(file: File, build: string, byReaper: bool)

  datatype System = System(
    lock: Lock,
    disk: Option<File>,
    daemons: map<Life, Daemon>,
    closers: map<nat, Closer>)

  datatype Step =
    | Start(d: Life, pid: nat, build: string)
    /** The same process runs the new image; descriptors close on exec, so the claim is given up. */
    | Exec(d: Life, next: Life, build: string)
    | Claim(d: Life)
    | Locked(d: Life)
    | New(d: Life)
    | Beat(d: Life)
    | Finalize(d: Life)
    /** Exit or death by any means: the kernel frees the claim. */
    | Exit(d: Life)
    | Load(c: nat, build: string)
    | Try(c: nat)
    | TryFails(c: nat)
    | Release(c: nat)
    /** A live daemon of another build is signalled; what is left of it is finalized. */
    | Kill(c: nat, recent: bool)
    /** recent: the pid is alive and its heartbeat recent. ownerAlive: the harness is. */
    | JudgeDead(c: nat, recent: bool, ownerAlive: bool)
    | JudgeAbandoned(c: nat, recent: bool, ownerAlive: bool)
    | Drop(c: nat)
    | Write(c: nat)

  predicate Is(s: System, d: Life, stage: Stage)
  {
    d in s.daemons && s.daemons[d].stage == stage
  }

  /** The pid belongs to no process that still runs. */
  predicate PidFree(s: System, pid: nat)
  {
    forall d :: d in s.daemons && s.daemons[d].pid == pid ==> s.daemons[d].stage == Gone
  }

  predicate Enabled(s: System, step: Step)
  {
    match step
    case Start(d, pid, _) => d !in s.daemons && PidFree(s, pid)
    case Exec(d, next, _) => d in s.daemons && s.daemons[d].Beats() && next !in s.daemons
    case Claim(d) => Is(s, d, Started) && s.lock == Free
    case Locked(d) => Is(s, d, Started) && s.lock != Free
    case New(d) => Is(s, d, Claimed)
    case Beat(d) => d in s.daemons && s.daemons[d].Beats()
    case Finalize(d) => d in s.daemons && s.daemons[d].Beats()
    case Exit(d) => d in s.daemons && s.daemons[d].stage != Gone
    case Load(c, _) => c !in s.closers && s.disk.Some? && !s.disk.value.finalized
    case Try(c) => c in s.closers && s.closers[c].Loaded? && s.lock == Free
    case TryFails(c) => c in s.closers && s.closers[c].Loaded? && s.lock != Free
    case Release(c) => c in s.closers && s.closers[c].Trying? && s.lock == Probed(c)
    case Kill(c, recent) =>
      && c in s.closers && s.closers[c].Tried? && (s.closers[c].held || recent)
      && s.closers[c].file.build != s.closers[c].build
    case JudgeDead(c, recent, ownerAlive) =>
      c in s.closers && s.closers[c].Tried? && !s.closers[c].held && !recent && ownerAlive
    case JudgeAbandoned(c, recent, ownerAlive) => c in s.closers && s.closers[c].Loaded? && !recent && !ownerAlive
    case Drop(c) => c in s.closers && !s.closers[c].Trying?
    case Write(c) => c in s.closers && s.closers[c].Judged?
  }

  function SetStage(s: System, d: Life, stage: Stage): System
    requires d in s.daemons
  {
    s.(daemons := s.daemons[d := s.daemons[d].(stage := stage)])
  }

  function SetCloser(s: System, c: nat, closer: Closer): System
  {
    s.(closers := s.closers[c := closer])
  }

  function SetDisk(s: System, file: File): System
  {
    s.(disk := Some(file))
  }

  function Freed(s: System, d: Life): System
  {
    if s.lock == HeldBy(d) then s.(lock := Free) else s
  }

  /** The daemon's own live state, as its save writes it. */
  function Own(s: System, d: Life): File
    requires d in s.daemons
  {
    File(d, s.daemons[d].pid, s.daemons[d].build, false)
  }

  /** beat's guard: the state on disk was finalized under this very pid. */
  predicate Guarded(s: System, d: Life)
    requires d in s.daemons
  {
    s.disk.Some? && s.disk.value.finalized && s.disk.value.pid == s.daemons[d].pid
  }

  function Signalled(daemons: map<Life, Daemon>, pid: nat): map<Life, Daemon>
  {
    map d | d in daemons ::
      if daemons[d].pid == pid && daemons[d].stage == Running then daemons[d].(stage := Cancelled) else daemons[d]
  }

  function After(s: System, step: Step): System
    requires Enabled(s, step)
  {
    match step
    case Start(d, pid, build) => s.(daemons := s.daemons[d := Daemon(pid, build, Started)])
    case Exec(d, next, build) =>
      var t := Freed(SetStage(s, d, Gone), d);
      t.(daemons := t.daemons[next := Daemon(s.daemons[d].pid, build, Started)])
    case Claim(d) => SetStage(s, d, Claimed).(lock := HeldBy(d))
    case Locked(d) => SetStage(s, d, Gone)
    case New(d) => SetDisk(SetStage(s, d, Running), Own(s, d))
    case Beat(d) => if Guarded(s, d) then s else SetDisk(s, Own(s, d))
    case Finalize(d) => SetDisk(SetStage(s, d, Ended), Own(s, d).(finalized := true))
    case Exit(d) => Freed(SetStage(s, d, Gone), d)
    case Load(c, build) => SetCloser(s, c, Loaded(s.disk.value, build))
    case Try(c) => SetCloser(s, c, Trying(s.closers[c].file, s.closers[c].build)).(lock := Probed(c))
    case TryFails(c) => SetCloser(s, c, Tried(s.closers[c].file, s.closers[c].build, true))
    case Release(c) => SetCloser(s, c, Tried(s.closers[c].file, s.closers[c].build, false)).(lock := Free)
    case Kill(c, _) =>
      SetCloser(s, c, Judged(s.closers[c].file, s.closers[c].build, true)).(
        daemons := Signalled(s.daemons, s.closers[c].file.pid))
    case JudgeDead(c, _, _) => SetCloser(s, c, Judged(s.closers[c].file, s.closers[c].build, true))
    case JudgeAbandoned(c, _, _) => SetCloser(s, c, Judged(s.closers[c].file, s.closers[c].build, false))
    case Drop(c) => s.(closers := s.closers - {c})
    case Write(c) => SetDisk(s, s.closers[c].file.(finalized := true)).(closers := s.closers - {c})
  }

  const START := System(Free, None, map[], map[])

  // ------------------------------------------------------------- the invariant

  /** The file describes a daemon that got as far as writing it, under that daemon's pid and build. */
  predicate Describes(s: System, f: File)
  {
    && f.life in s.daemons && s.daemons[f.life].stage !in {Started, Claimed}
    && f.pid == s.daemons[f.life].pid && f.build == s.daemons[f.life].build
  }

  predicate CloserInv(s: System, c: nat)
    requires c in s.closers
  {
    var k := s.closers[c];
    && s.disk.Some? && !k.file.finalized && Describes(s, k.file)
    && (k.Trying? ==> s.lock == Probed(c) && s.daemons[k.file.life].stage == Gone)
    && (k.Tried? && !k.held ==> s.daemons[k.file.life].stage == Gone)
    && (k.Judged? && k.byReaper && k.file.build == k.build ==> s.daemons[k.file.life].stage == Gone)
  }

  ghost predicate Inv(s: System)
  {
    && (forall d :: d in s.daemons && s.daemons[d].HasClaim() ==> s.lock == HeldBy(d))
    && (s.disk.Some? ==> Describes(s, s.disk.value))
    && (forall d :: d in s.daemons && (s.daemons[d].Beats() || s.daemons[d].stage == Ended) ==> s.disk.Some?)
    && (forall c :: c in s.closers ==> CloserInv(s, c))
    && (s.lock.HeldBy? ==> s.lock.life in s.daemons && s.daemons[s.lock.life].HasClaim())
    && (s.lock.Probed? ==> s.lock.closer in s.closers && s.closers[s.lock.closer].Trying?)
  }

  lemma DaemonStepKeeps(s: System, step: Step)
    requires Inv(s) && Enabled(s, step)
    requires step.Start? || step.Claim? || step.Locked? || step.New? || step.Beat? || step.Finalize?
    ensures Inv(After(s, step))
  {
    var t := After(s, step);
    forall c | c in t.closers ensures CloserInv(t, c) {
      assert CloserInv(s, c);
    }
  }

  lemma ExitKeeps(s: System, step: Step)
    requires Inv(s) && Enabled(s, step) && (step.Exit? || step.Exec?)
    ensures Inv(After(s, step))
  {
    var t := After(s, step);
    forall c | c in t.closers ensures CloserInv(t, c) {
      assert CloserInv(s, c);
    }
  }

  lemma TryStepKeeps(s: System, step: Step)
    requires Inv(s) && Enabled(s, step) && (step.Load? || step.Try? || step.TryFails? || step.Release?)
    ensures Inv(After(s, step))
  {
    var t := After(s, step);
    forall c | c in t.closers ensures CloserInv(t, c) {
      if c in s.closers { assert CloserInv(s, c); }
    }
  }

  lemma JudgeStepKeeps(s: System, step: Step)
    requires Inv(s) && Enabled(s, step) && (step.Kill? || step.JudgeDead? || step.JudgeAbandoned?)
    ensures Inv(After(s, step))
  {
    var t := After(s, step);
    forall c | c in t.closers ensures CloserInv(t, c) {
      if c in s.closers { assert CloserInv(s, c); }
    }
  }

  lemma WriteKeeps(s: System, step: Step)
    requires Inv(s) && Enabled(s, step) && (step.Drop? || step.Write?)
    ensures Inv(After(s, step))
  {
    var t := After(s, step);
    assert CloserInv(s, step.c);
    forall c | c in t.closers ensures CloserInv(t, c) {
      assert CloserInv(s, c);
    }
  }

  lemma StepKeeps(s: System, step: Step)
    requires Inv(s) && Enabled(s, step)
    ensures Inv(After(s, step))
  {
    hide Inv, Enabled, After;
    if step.Start? || step.Claim? || step.Locked? || step.New? || step.Beat? || step.Finalize? {
      DaemonStepKeeps(s, step);
    } else if step.Exit? || step.Exec? {
      ExitKeeps(s, step);
    } else if step.Drop? || step.Write? {
      WriteKeeps(s, step);
    } else if step.Kill? || step.JudgeDead? || step.JudgeAbandoned? {
      JudgeStepKeeps(s, step);
    } else {
      TryStepKeeps(s, step);
    }
  }

  // ------------------------------------------------------------------- all runs

  ghost predicate Run(s: System, steps: seq<Step>)
    decreases |steps|
  {
    steps == [] || (Enabled(s, steps[0]) && Run(After(s, steps[0]), steps[1..]))
  }

  ghost function Final(s: System, steps: seq<Step>): System
    requires Run(s, steps)
    decreases |steps|
  {
    if steps == [] then s else Final(After(s, steps[0]), steps[1..])
  }

  lemma {:induction false} RunKeeps(s: System, steps: seq<Step>)
    requires Inv(s) && Run(s, steps)
    ensures Inv(Final(s, steps))
    decreases |steps|
  {
    hide Inv, Enabled, After;
    if steps != [] {
      StepKeeps(s, steps[0]);
      RunKeeps(After(s, steps[0]), steps[1..]);
    }
  }

  lemma Reached(steps: seq<Step>)
    requires Run(START, steps)
    ensures Inv(Final(START, steps))
  {
    RunKeeps(START, steps);
  }

  /** At most one process holds the session's claim. */
  lemma OneClaim(steps: seq<Step>, d: Life, d': Life)
    requires Run(START, steps)
    ensures var s := Final(START, steps);
            d in s.daemons && d' in s.daemons && s.daemons[d].HasClaim() && s.daemons[d'].HasClaim() ==> d == d'
  {
    hide Run, Final;
    Reached(steps);
  }

  /**
   * A starting daemon is refused the claim because another daemon holds it exactly when the lock
   * is a daemon's. Refused by a reaper's probe of the lock, it gives up with nobody in its place.
   */
  lemma RefusedByADaemon(steps: seq<Step>, d: Life)
    requires Run(START, steps) && Enabled(Final(START, steps), Locked(d))
    ensures var s := Final(START, steps);
            && ((exists d' :: d' != d && d' in s.daemons && s.daemons[d'].HasClaim()) <==> s.lock.HeldBy?)
            && (s.lock.Probed? ==> forall d' :: d' in s.daemons ==> !s.daemons[d'].HasClaim())
  {
    hide Run, Final;
    Reached(steps);
    var s := Final(START, steps);
    if s.lock.HeldBy? { assert s.lock.life != d && s.daemons[s.lock.life].HasClaim(); }
  }

  /** A finalized state is reopened only by the claim's holder, and only one the state does not describe. */
  lemma ReopenedOnlyByAnother(steps: seq<Step>, step: Step)
    requires Run(START, steps) && Enabled(Final(START, steps), step)
    ensures var s := Final(START, steps);
            var t := After(s, step);
            s.disk.Some? && s.disk.value.finalized && t.disk.Some? && !t.disk.value.finalized ==>
              && (step.New? || step.Beat?)
              && s.lock == HeldBy(step.d) && step.d != s.disk.value.life && t.disk.value == Own(s, step.d)
  {
    hide Run, Final;
    Reached(steps);
    var s := Final(START, steps);
    if s.disk.Some? { assert Describes(s, s.disk.value); }
  }

  /** The state file never goes away or describes a daemon that did not write it. */
  lemma StateDescribesItsWriter(steps: seq<Step>, step: Step)
    requires Run(START, steps) && Enabled(Final(START, steps), step)
    ensures var s, t := Final(START, steps), After(Final(START, steps), step);
            && (s.disk.Some? ==> t.disk.Some? && Describes(s, s.disk.value))
            && (!s.disk.Some? && t.disk.Some? ==> step.New?)
  {
    hide Run, Final;
    Reached(steps);
    var s := Final(START, steps);
    if step.Write? { assert CloserInv(s, step.c) && Describes(s, s.closers[step.c].file); }
  }

  /** The reaper finalizes a state of its own build only once the daemon it describes is gone. */
  lemma CurrentBuildSpared(steps: seq<Step>, c: nat)
    requires Run(START, steps)
    ensures var s := Final(START, steps);
            && c in s.closers && s.closers[c].Judged? && s.closers[c].byReaper
            && s.closers[c].file.build == s.closers[c].build ==>
              s.closers[c].file.life in s.daemons && s.daemons[s.closers[c].file.life].stage == Gone
  {
    hide Run, Final;
    Reached(steps);
    var s := Final(START, steps);
    if c in s.closers { assert CloserInv(s, c); }
  }

  /** No two lives share a pid: no upgrade in place, no reused pid. */
  ghost predicate DistinctPids(s: System)
  {
    forall d, d' :: d in s.daemons && d' in s.daemons && s.daemons[d].pid == s.daemons[d'].pid ==> d == d'
  }

  /**
   * A heartbeat puts the daemon's live state back, whatever was written over it, exactly when the
   * state on disk was not finalized under the daemon's own pid; with pids that name one life each,
   * exactly when it is not this daemon that was finalized.
   */
  lemma BeatHeals(steps: seq<Step>, d: Life)
    requires Run(START, steps) && Enabled(Final(START, steps), Beat(d))
    ensures var s := Final(START, steps);
            var t := After(s, Beat(d));
            && (t.disk.Some? && t.disk.value == Own(s, d) <==> !Guarded(s, d))
            && (DistinctPids(s) ==>
                  (t.disk.Some? && t.disk.value == Own(s, d)
                   <==> !(s.disk.Some? && s.disk.value.life == d && s.disk.value.finalized)))
  {
    hide Run, Final;
    Reached(steps);
    var s := Final(START, steps);
  }

  lemma Prepend(s: System, step: Step, t: System, steps: seq<Step>) returns (longer: seq<Step>)
    requires Enabled(s, step) && After(s, step) == t && Run(t, steps)
    ensures Run(s, longer) && Final(s, longer) == Final(t, steps)
  {
    longer := [step] + steps;
    assert longer[1..] == steps;
  }

  const LIVE := File(0, 7, "old", false)
  const WAS := Daemon(7, "old", Running)
  const NEXT := Daemon(7, "new", Running)
  /** The old daemon runs; a reaper of the new build has read its state and signalled it. */
  const SIGNALLED := System(HeldBy(0), Some(LIVE), map[0 := WAS.(stage := Cancelled)],
                            map[0 := Judged(LIVE, "new", true)])

  /** The first daemon is dead and its state open; a reaper has read the state and is trying the lock. */
  const PROBING := System(Probed(0), Some(LIVE), map[0 := WAS.(stage := Gone)], map[0 := Trying(LIVE, "new")])

  lemma UpToProbe(steps: seq<Step>) returns (longer: seq<Step>)
    requires Run(PROBING, steps)
    ensures Run(START, longer) && Final(START, longer) == Final(PROBING, steps)
  {
    hide Run, Final;
    var s1 := START.(daemons := map[0 := WAS.(stage := Started)]);
    var s2 := s1.(lock := HeldBy(0), daemons := map[0 := WAS.(stage := Claimed)]);
    var s3 := s2.(disk := Some(LIVE), daemons := map[0 := WAS]);
    var s4 := s3.(lock := Free, daemons := map[0 := WAS.(stage := Gone)]);
    var s5 := s4.(closers := map[0 := Loaded(LIVE, "new")]);
    longer := Prepend(s5, Try(0), PROBING, steps);
    longer := Prepend(s4, Load(0, "new"), s5, longer);
    longer := Prepend(s3, Exit(0), s4, longer);
    longer := Prepend(s2, New(0), s3, longer);
    longer := Prepend(s1, Claim(0), s2, longer);
    longer := Prepend(START, Start(0, 7, "old"), s1, longer);
  }

  /** A daemon that starts while a reaper tries the lock gives up; the reaper lets go, and no daemon is left. */
  lemma GivesUpToAProbe() returns (steps: seq<Step>)
    ensures Run(START, steps)
    ensures var s := Final(START, steps);
            && s.lock == Free && s.disk == Some(LIVE) && 1 in s.daemons
            && forall d :: d in s.daemons ==> s.daemons[d].stage == Gone
  {
    var both := map[0 := WAS.(stage := Gone), 1 := Daemon(8, "new", Started)];
    var p1 := PROBING.(daemons := both);
    var p2 := p1.(daemons := both[1 := Daemon(8, "new", Gone)]);
    var p3 := p2.(lock := Free, closers := map[0 := Tried(LIVE, "new", false)]);
    steps := [];
    assert Run(p3, steps) && Final(p3, steps) == p3;
    hide Run, Final;
    steps := Prepend(p2, Release(0), p3, steps);
    steps := Prepend(p1, Locked(1), p2, steps);
    steps := Prepend(PROBING, Start(1, 8, "new"), p1, steps);
    steps := UpToProbe(steps);
  }

  lemma UpToSignal(steps: seq<Step>) returns (longer: seq<Step>)
    requires Run(SIGNALLED, steps)
    ensures Run(START, longer) && Final(START, longer) == Final(SIGNALLED, steps)
  {
    hide Run, Final;
    var s1 := START.(daemons := map[0 := WAS.(stage := Started)]);
    var s2 := s1.(lock := HeldBy(0), daemons := map[0 := WAS.(stage := Claimed)]);
    var s3 := s2.(disk := Some(LIVE), daemons := map[0 := WAS]);
    var s4 := s3.(closers := map[0 := Loaded(LIVE, "new")]);
    var s5 := s4.(closers := map[0 := Tried(LIVE, "new", true)]);
    longer := Prepend(s5, Kill(0, true), SIGNALLED, steps);
    longer := Prepend(s4, TryFails(0), s5, longer);
    longer := Prepend(s3, Load(0, "new"), s4, longer);
    longer := Prepend(s2, New(0), s3, longer);
    longer := Prepend(s1, Claim(0), s2, longer);
    longer := Prepend(START, Start(0, 7, "old"), s1, longer);
  }

  /** The same process has exec'd the new image and claimed the session again. */
  const UPGRADED := SIGNALLED.(lock := HeldBy(1),
                               daemons := map[0 := WAS.(stage := Gone), 1 := NEXT.(stage := Claimed)])

  lemma UpToUpgrade(steps: seq<Step>) returns (longer: seq<Step>)
    requires Run(UPGRADED, steps)
    ensures Run(START, longer) && Final(START, longer) == Final(UPGRADED, steps)
  {
    hide Run, Final;
    var s7 := SIGNALLED.(lock := Free, daemons := map[0 := WAS.(stage := Gone), 1 := NEXT.(stage := Started)]);
    longer := Prepend(s7, Claim(1), UPGRADED, steps);
    longer := Prepend(SIGNALLED, Exec(0, 1, "new"), s7, longer);
    longer := UpToSignal(longer);
  }

  /**
   * A closer that loaded the state before an upgrade in place and writes it after the new image's
   * start finalizes the new image's state under its own pid; its heartbeats leave that as it is.
   */
  lemma UpgradeUnderACloser() returns (steps: seq<Step>)
    ensures Run(START, steps)
    ensures var s := Final(START, steps);
            && Is(s, 1, Running) && s.lock == HeldBy(1) && s.disk == Some(File(0, 7, "old", true))
            && Enabled(s, Beat(1)) && After(s, Beat(1)) == s
  {
    var s9 := UPGRADED.(disk := Some(File(1, 7, "new", false)), daemons := map[0 := WAS.(stage := Gone), 1 := NEXT]);
    var s10 := s9.(disk := Some(LIVE.(finalized := true)), closers := map[]);
    steps := [];
    assert Run(s10, steps) && Final(s10, steps) == s10;
    hide Run, Final;
    steps := Prepend(s9, Write(0), s10, steps);
    steps := Prepend(UPGRADED, New(1), s9, steps);
    steps := UpToUpgrade(steps);
  }
}
