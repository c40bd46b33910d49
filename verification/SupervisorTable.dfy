/**
 What the supervisor keeps in every run whatsoever. Nothing is assumed about when announcements are
 read, nor that they arrive whole, nor about the types that plugins or bytes in the pipe name.
*/
module SupervisorTable {
  import opened Supervisor

  // ---------- Invariants ----------

  ghost predicate NoDuplicates(s: seq<Pid>) {
    forall i, j | 0 <= i < j < |s| :: s[i] != s[j]
  }

  /** The vector of children is the kernel's table of unreaped children. */
  ghost predicate Kernel(s: Sys) {
    && NoDuplicates(s.d.children) && 0 !in s.d.children
    && (forall p :: p in s.d.children <==> p in s.w.holder)
    && (forall p | p in s.w.holder :: KnownPid(s.w, p) && s.w.procs[s.w.holder[p]].pid == p)
    && (forall k | 0 <= k < |s.w.procs| && !Holds(s.w, k) :: s.w.procs[k].status.Dead?)
  }

  /** Whatever select reported is still there. */
  ghost predicate Ready(s: Sys) {
    && (s.pc.Booting? ==> s.pc.next <= |s.types|)
    && (s.pc.Scanning? ==> s.pc.i <= |s.d.children| && (s.pc.term ==> s.w.termPipe > 0)
                           && (s.pc.usr1 ==> s.w.usr1Pipe > 0))
    && (s.pc.Handling? ==>
          && (s.pc.announce ==> s.w.pipe != [])
          && (s.pc.chld ==> s.w.chldPipe > 0)
          && (s.pc.term ==> s.w.termPipe > 0)
          && (s.pc.usr1 ==> s.w.usr1Pipe > 0))
  }

  ghost predicate Conserved(s: Sys) {
    |s.d.children| + s.dropped == |Started(s)| + s.taken
  }

  /** A dead child will still be seen: a signal is pending, a byte waits in the self-pipe, or the
      scan in progress has not passed the child. */
  ghost predicate Watched(s: Sys) {
    forall j | 0 <= j < |s.d.children| && ZombiePid(s.w, s.d.children[j]) ::
      s.w.chldPending || s.w.chldPipe > 0 || (s.pc.Scanning? && s.pc.i <= j)
  }

  /** Out of boot mode, a recorded booster that was forked in boot mode has been sent SIGTERM. */
  ghost predicate NormalMode(s: Sys) {
    !s.d.bootMode ==>
      forall t | t in s.d.typeToPid && KnownPid(s.w, s.d.typeToPid[t]) ::
        var p := s.w.procs[s.w.holder[s.d.typeToPid[t]]];
        p.bootFork ==> p.termSent
  }

  ghost predicate Sound(s: Sys) {
    Kernel(s) && Ready(s) && Conserved(s) && Watched(s) && NormalMode(s)
  }

  /** Rule A: announcements arrive whole, so the frames in the pipe are those that were written and
      no read comes up short. Nothing in this module needs it. */
  ghost predicate RuleA(e: Event) {
    !(e.Env? && e.env.Garble?) && !(e.Dmn? && e.dmn.ReadFails?)
  }

  ghost predicate ObeysA(es: seq<Event>) {
    forall i | 0 <= i < |es| :: RuleA(es[i])
  }

  // ---------- Frames ----------

  lemma EraseFacts(s: seq<Pid>, i: nat)
    requires i < |s| && NoDuplicates(s)
    ensures NoDuplicates(EraseAt(s, i)) && |EraseAt(s, i)| == |s| - 1
    ensures forall p :: p in EraseAt(s, i) <==> p in s && p != s[i]
    ensures forall j | 0 <= j < i :: EraseAt(s, i)[j] == s[j]
  {
    var e := EraseAt(s, i);
    forall p | p in s && p != s[i] ensures p in e {
      var j :| 0 <= j < |s| && s[j] == p;
      assert e[if j < i then j else j - 1] == p;
    }
    forall p | p in e ensures p in s && p != s[i] {
      var j :| 0 <= j < |e| && e[j] == p;
      assert s[if j < i then j else j + 1] == p;
    }
  }

  lemma SpawnFacts(w: World, kind: char, boot: bool, newPid: Pid)
    requires FreshPid(w, newPid)
    ensures var w' := Spawn(w, kind, boot, newPid);
            && (forall p | p != newPid :: p in w'.holder <==> p in w.holder)
            && (forall p | p in w.holder :: w'.holder[p] == w.holder[p])
            && (forall p | KnownPid(w, p) :: KnownPid(w', p) && w'.procs[w'.holder[p]] == w.procs[w.holder[p]])
            && KnownPid(w', newPid) && w'.procs[w'.holder[newPid]] == Proc(newPid, kind, boot, Waiting, Live, false)
  {
  }

  /** What no action of another process changes. */
  lemma EnvFrame(w: World, e: EnvEvent)
    requires EnvEnabled(w, e)
    ensures var w' := EnvStep(w, e);
            && w'.holder == w.holder && |w'.procs| == |w.procs|
            && (forall k | 0 <= k < |w.procs| ::
                  && w'.procs[k] == w.procs[k].(stage := w'.procs[k].stage, status := w'.procs[k].status)
                  && Holds(w', k) == Holds(w, k)
                  && (w.procs[k].status.Dead? ==> w'.procs[k].status == w.procs[k].status)
                  && (w'.procs[k].status != w.procs[k].status ==> e.Die? && k == e.k))
            && (forall p :: KnownPid(w', p) == KnownPid(w, p))
            && (w.chldPipe > 0 || w.chldPending ==> w'.chldPipe > 0 || w'.chldPending)
            && (e.Die? ==> w'.chldPending)
            && w'.chldPipe >= w.chldPipe && w'.termPipe >= w.termPipe && w'.usr1Pipe >= w.usr1Pipe
            && (w.pipe != [] ==> w'.pipe != [])
  {
    EnvProcs(w, e);
    EnvPipes(w, e);
    hide EnvStep;
  }

  lemma EnvProcs(w: World, e: EnvEvent)
    requires EnvEnabled(w, e)
    ensures var w' := EnvStep(w, e);
            && w'.holder == w.holder && |w'.procs| == |w.procs|
            && forall k | 0 <= k < |w.procs| ::
                 && w'.procs[k] == w.procs[k].(stage := w'.procs[k].stage, status := w'.procs[k].status)
                 && (w.procs[k].status.Dead? ==> w'.procs[k].status == w.procs[k].status)
                 && (w'.procs[k].status != w.procs[k].status ==> e.Die? && k == e.k)
  {
  }

  lemma EnvPipes(w: World, e: EnvEvent)
    requires EnvEnabled(w, e)
    ensures var w' := EnvStep(w, e);
            && (w.chldPipe > 0 || w.chldPending ==> w'.chldPipe > 0 || w'.chldPending)
            && (e.Die? ==> w'.chldPending)
            && w'.chldPipe >= w.chldPipe && w'.termPipe >= w.termPipe && w'.usr1Pipe >= w.usr1Pipe
            && (w.pipe != [] ==> w'.pipe != [])
  {
  }

  lemma BuriedFacts(s: Sys)
    requires Kernel(s) && AtZombie(s)
    ensures var pid := s.d.children[s.pc.i];
            var w1 := Buried(s);
            && w1.procs == s.w.procs && pid !in w1.holder
            && (forall p | p != pid ::
                  && (p in w1.holder <==> p in s.w.holder)
                  && (p in w1.holder ==> w1.holder[p] == s.w.holder[p]))
            && (forall k | 0 <= k < |w1.procs| :: Holds(w1, k) <==> Holds(s.w, k) && k != s.w.holder[pid])
  {
  }

  // ---------- Steps of the others ----------

  lemma EnvKeepsKernel(s: Sys, e: EnvEvent)
    requires Kernel(s) && EnvEnabled(s.w, e)
    ensures Kernel(Step(s, Env(e)))
  {
    EnvFrame(s.w, e);
    hide EnvStep;
  }

  lemma EnvKeepsWatched(s: Sys, e: EnvEvent)
    requires Watched(s) && EnvEnabled(s.w, e)
    ensures Watched(Step(s, Env(e)))
  {
    EnvFrame(s.w, e);
    hide EnvStep;
  }

  lemma EnvKeepsNormalMode(s: Sys, e: EnvEvent)
    requires NormalMode(s) && EnvEnabled(s.w, e)
    ensures NormalMode(Step(s, Env(e)))
  {
    EnvFrame(s.w, e);
    hide EnvStep;
  }

  lemma EnvKeepsSound(s: Sys, e: EnvEvent)
    requires Sound(s) && EnvEnabled(s.w, e)
    ensures Sound(Step(s, Env(e)))
  {
    hide Kernel, Watched, NormalMode;
    EnvKeepsKernel(s, e);
    EnvKeepsWatched(s, e);
    EnvKeepsNormalMode(s, e);
    EnvFrame(s.w, e);
  }

  // ---------- Forks ----------

  /** Forking into a consistent kernel state keeps it consistent. */
  lemma SpawnKeepsKernel(s: Sys, d: DaemonState, kind: char, newPid: Pid)
    requires Kernel(s) && FreshPid(s.w, newPid) && d.children == s.d.children + [newPid]
    ensures Kernel(s.(d := d, w := Spawn(s.w, kind, s.d.bootMode, newPid)))
  {
    SpawnFacts(s.w, kind, s.d.bootMode, newPid);
    var w' := Spawn(s.w, kind, s.d.bootMode, newPid);
    assert forall p :: p in d.children <==> p in s.d.children || p == newPid;
    assert forall k | 0 <= k < |s.w.procs| :: w'.procs[k] == s.w.procs[k] && Holds(w', k) == Holds(s.w, k);
  }

  /** A new live child, forked with the daemon's current boot flag, breaks neither the watch for
      dead children nor the boot-mode promise. */
  lemma ChildJoined(s: Sys, s': Sys, kind: char, newPid: Pid)
    requires Kernel(s) && Watched(s) && NormalMode(s) && !s.pc.Scanning? && FreshPid(s.w, newPid)
    requires s'.d.children == s.d.children + [newPid] && s'.d.bootMode == s.d.bootMode
    requires s'.d.typeToPid == s.d.typeToPid[kind := newPid]
    requires s'.w == Spawn(s.w.(pipe := s'.w.pipe), kind, s.d.bootMode, newPid)
    ensures Watched(s') && NormalMode(s')
  {
    SpawnFacts(s.w, kind, s.d.bootMode, newPid);
    assert forall p | p != newPid :: KnownPid(s'.w, p) ==> KnownPid(s.w, p);
  }

  lemma BootForkKeepsSound(s: Sys, newPid: Pid)
    requires Sound(s) && DaemonEnabled(s, BootFork(newPid))
    ensures Sound(Step(s, Dmn(BootFork(newPid))))
  {
    var kind := s.types[s.pc.next];
    var s' := Step(s, Dmn(BootFork(newPid)));
    hide Kernel, Watched, NormalMode;
    SpawnKeepsKernel(s, s'.d, kind, newPid);
    KernelParts(s.(d := s'.d, w := s'.w), s');
    ChildJoined(s, s', kind, newPid);
  }

  lemma ReadKeepsSound(s: Sys, newPid: Pid)
    requires Sound(s) && DaemonEnabled(s, TakeAnnouncement(newPid))
    ensures Sound(AfterRead(s, newPid))
  {
    var m := s.w.pipe[0];
    var s' := AfterRead(s, newPid);
    var s1 := s.(w := s.w.(pipe := s.w.pipe[1..]));
    KernelBehindPipe(s, s1);
    hide Kernel, Watched, NormalMode;
    SpawnKeepsKernel(s1, s'.d, m.kind, newPid);
    KernelParts(s1.(d := s'.d, w := s'.w), s');
    ChildJoined(s, s', m.kind, newPid);
  }

  lemma KernelBehindPipe(s: Sys, s': Sys)
    requires Kernel(s) && s' == s.(w := s.w.(pipe := s'.w.pipe))
    ensures Kernel(s')
  {
    assert forall k | 0 <= k < |s.w.procs| :: Holds(s'.w, k) == Holds(s.w, k);
  }

  lemma KernelParts(s: Sys, s': Sys)
    requires Kernel(s) && s'.d.children == s.d.children && s'.w == s.w
    ensures Kernel(s')
  {
  }

  // ---------- Reaps ----------

  lemma BuryKeepsKernel(s: Sys)
    requires Kernel(s) && AtZombie(s)
    ensures Kernel(s.(d := Forget(s.d, s.pc.i), w := Buried(s)))
  {
    BuriedFacts(s);
    EraseFacts(s.d.children, s.pc.i);
    hide Bury;
  }

  lemma ReapKeepsKernel(s: Sys, newPid: Pid)
    requires Kernel(s) && DaemonEnabled(s, ScanReap(newPid))
    ensures Kernel(AfterReap(s, newPid))
  {
    hide Kernel, TypeForPid, Bury;
    BuryKeepsKernel(s);
    var kind := TypeForPid(s.d.typeToPid, s.d.children[s.pc.i]);
    var s1 := s.(d := Forget(s.d, s.pc.i), w := Buried(s));
    var s' := AfterReap(s, newPid);
    if kind != '\0' {
      SpawnKeepsKernel(s1, s'.d, kind, newPid);
      KernelParts(s1.(d := s'.d, w := Spawn(s1.w, kind, s1.d.bootMode, newPid)), s');
    } else {
      KernelParts(s1, s');
    }
  }

  /** A reap kills nobody who was alive, and the newcomer is alive. */
  lemma ReapMakesNoZombie(s: Sys, newPid: Pid, p: Pid)
    requires Kernel(s) && DaemonEnabled(s, ScanReap(newPid)) && ZombiePid(AfterReap(s, newPid).w, p)
    ensures ZombiePid(s.w, p) && p != s.d.children[s.pc.i]
  {
    BuriedFacts(s);
    var kind := TypeForPid(s.d.typeToPid, s.d.children[s.pc.i]);
    if kind != '\0' {
      SpawnFacts(Buried(s), kind, s.d.bootMode, newPid);
    }
    hide Kernel, TypeForPid, Bury;
  }

  /** The part of the scan already passed is untouched by a reap, which hides no dead child. */
  lemma ReapKeepsWatched(s: Sys, newPid: Pid)
    requires Kernel(s) && Watched(s) && DaemonEnabled(s, ScanReap(newPid))
    ensures Watched(AfterReap(s, newPid))
  {
    var s' := AfterReap(s, newPid);
    EraseFacts(s.d.children, s.pc.i);
    hide Kernel, Bury, ZombiePid;
    forall j | 0 <= j < |s'.d.children| && ZombiePid(s'.w, s'.d.children[j]) && j < s.pc.i
      ensures s'.w.chldPending || s'.w.chldPipe > 0
    {
      ReapMakesNoZombie(s, newPid, s'.d.children[j]);
      assert s'.d.children[j] == s.d.children[j];
      SameSignals(s, newPid);
    }
    assert s'.pc == s.pc;
  }

  lemma SameSignals(s: Sys, newPid: Pid)
    requires DaemonEnabled(s, ScanReap(newPid))
    ensures var w' := AfterReap(s, newPid).w;
            && w'.chldPending == s.w.chldPending && w'.chldPipe == s.w.chldPipe
            && w'.termPipe == s.w.termPipe && w'.usr1Pipe == s.w.usr1Pipe && w'.pipe == s.w.pipe
  {
    hide TypeForPid;
  }

  lemma ReapKeepsNormalMode(s: Sys, newPid: Pid)
    requires Kernel(s) && NormalMode(s) && DaemonEnabled(s, ScanReap(newPid))
    ensures NormalMode(AfterReap(s, newPid))
  {
    var s' := AfterReap(s, newPid);
    var kind := TypeForPid(s.d.typeToPid, s.d.children[s.pc.i]);
    BuriedFacts(s);
    if kind != '\0' {
      SpawnFacts(Buried(s), kind, s.d.bootMode, newPid);
    }
    hide Kernel, TypeForPid, Bury;
    forall t | !s.d.bootMode && t in s'.d.typeToPid && KnownPid(s'.w, s'.d.typeToPid[t])
      ensures var p := s'.w.procs[s'.w.holder[s'.d.typeToPid[t]]]; p.bootFork ==> p.termSent
    {
      var p := s'.d.typeToPid[t];
      if kind == '\0' || p != newPid {
        assert t in s.d.typeToPid && s.d.typeToPid[t] == p && KnownPid(s.w, p);
      }
    }
  }

  lemma ReapKeepsCount(s: Sys, newPid: Pid)
    requires Kernel(s) && Ready(s) && Conserved(s) && DaemonEnabled(s, ScanReap(newPid))
    ensures Ready(AfterReap(s, newPid)) && Conserved(AfterReap(s, newPid))
    ensures |AfterReap(s, newPid).d.children| <= |s.d.children|
  {
    EraseFacts(s.d.children, s.pc.i);
    SameSignals(s, newPid);
    hide Kernel, TypeForPid, Bury, Spawn;
  }

  lemma ReapKeepsSound(s: Sys, newPid: Pid)
    requires Sound(s) && DaemonEnabled(s, ScanReap(newPid))
    ensures Sound(AfterReap(s, newPid))
  {
    hide Kernel, Ready, Conserved, Watched, NormalMode, AfterReap;
    ReapKeepsKernel(s, newPid);
    ReapKeepsCount(s, newPid);
    ReapKeepsWatched(s, newPid);
    ReapKeepsNormalMode(s, newPid);
  }

  // ---------- The other steps of the daemon ----------

  lemma TermFrame(w: World, pids: set<Pid>)
    ensures var w' := SendTerm(w, pids);
            && w' == w.(procs := w'.procs) && |w'.procs| == |w.procs|
            && forall k | 0 <= k < |w.procs| ::
                 && w'.procs[k] == w.procs[k].(termSent := w'.procs[k].termSent)
                 && Holds(w', k) == Holds(w, k)
                 && (w'.procs[k].termSent <==> w.procs[k].termSent || (w.procs[k].pid in pids && Holds(w, k)))
  {
  }

  lemma NormalModeKeepsSound(s: Sys)
    requires Sound(s) && DaemonEnabled(s, TakeUsr1)
    ensures Sound(Step(s, Dmn(TakeUsr1)))
  {
    var s' := Step(s, Dmn(TakeUsr1));
    TermFrame(s.w.(usr1Pipe := s.w.usr1Pipe - 1), RecordedPids(s.d));
    hide SendTerm;
    assert |s'.w.procs| == |s.w.procs| && s'.w.holder == s.w.holder;
    assert forall k | 0 <= k < |s.w.procs| :: Holds(s'.w, k) == Holds(s.w, k);
    if s.d.bootMode {
      forall t | t in s'.d.typeToPid && KnownPid(s'.w, s'.d.typeToPid[t])
        ensures s'.w.procs[s'.w.holder[s'.d.typeToPid[t]]].termSent
      {
        assert s.d.typeToPid[t] in RecordedPids(s.d);
        assert Holds(s.w, s.w.holder[s.d.typeToPid[t]]);
      }
    }
    hide RecordedPids;
  }

  /** A step that neither forks nor signals anyone. */
  predicate IsQuiet(e: DaemonEvent) {
    e.BootDone? || e.Wake? || e.ReadFails? || e.StartScan? || e.ScanLive? || e.ScanEnd? || e.TakeTerm? || e.PassEnd?
  }

  lemma QuietStepKeepsSound(s: Sys, e: DaemonEvent)
    requires Sound(s) && DaemonEnabled(s, e) && IsQuiet(e)
    ensures Sound(DaemonStep(s, e))
  {
    var s' := DaemonStep(s, e);
    assert s'.d == s.d && s'.w == s.w.(chldPipe := s'.w.chldPipe, termPipe := s'.w.termPipe);
    assert e.BootDone? ==> s.types[..|s.types|] == s.types;
    assert forall k | 0 <= k < |s.w.procs| :: Holds(s'.w, k) == Holds(s.w, k);
    assert forall p :: ZombiePid(s'.w, p) == ZombiePid(s.w, p) && KnownPid(s'.w, p) == KnownPid(s.w, p);
    assert Kernel(s') && NormalMode(s');
    hide Kernel, NormalMode, KnownPid, Holds;
  }

  lemma StepKeepsSound(s: Sys, e: Event)
    requires Sound(s) && Enabled(s, e)
    ensures Sound(Step(s, e))
  {
    hide Sound;
    match e
    case Env(env) => EnvKeepsSound(s, env);
    case Dmn(BootFork(newPid)) => BootForkKeepsSound(s, newPid);
    case Dmn(TakeAnnouncement(newPid)) => ReadKeepsSound(s, newPid);
    case Dmn(ScanReap(newPid)) => ReapKeepsSound(s, newPid);
    case Dmn(TakeUsr1) => NormalModeKeepsSound(s);
    case Dmn(dmn) => QuietStepKeepsSound(s, dmn);
  }

  // ---------- Whole runs ----------

  lemma {:induction false} RunKeepsSound(s: Sys, es: seq<Event>)
    requires Sound(s) && CanRun(s, es)
    ensures Sound(Run(s, es))
    decreases |es|
  {
    hide Sound, Step;
    if es != [] {
      StepKeepsSound(s, es[0]);
      RunKeepsSound(Step(s, es[0]), es[1..]);
    }
  }

  /** Every state of every run from start-up is sound. */
  lemma SoundnessTheorem(types: seq<char>, bootMode: bool, es: seq<Event>)
    requires CanRun(Start(types, bootMode), es)
    ensures Sound(Run(Start(types, bootMode), es))
  {
    assert types[..0] == [];
    RunKeepsSound(Start(types, bootMode), es);
  }

  /** In every reachable state the children are the kernel's unreaped children, each once. */
  lemma ChildrenTheorem(types: seq<char>, bootMode: bool, es: seq<Event>)
    requires CanRun(Start(types, bootMode), es)
    ensures var s := Run(Start(types, bootMode), es);
            && (forall i, j | 0 <= i < j < |s.d.children| :: s.d.children[i] != s.d.children[j])
            && (forall p :: p in s.d.children <==> p in s.w.holder)
            && (forall k | 0 <= k < |s.w.procs| && s.w.procs[k].status.Live? :: s.w.procs[k].pid in s.d.children)
  {
    SoundnessTheorem(types, bootMode, es);
    LivesAreHeld(Run(Start(types, bootMode), es));
  }

  /** In every reachable state each dead child will still be noticed. */
  lemma NoLostZombieTheorem(types: seq<char>, bootMode: bool, es: seq<Event>)
    requires CanRun(Start(types, bootMode), es)
    ensures var s := Run(Start(types, bootMode), es);
            forall j | 0 <= j < |s.d.children| && ZombiePid(s.w, s.d.children[j]) ::
              s.w.chldPending || s.w.chldPipe > 0 || (s.pc.Scanning? && s.pc.i <= j)
  {
    SoundnessTheorem(types, bootMode, es);
  }

  /** In every reachable state children are conserved: one for each type started and each
      announcement read, less those reaped that were no type's recorded booster. */
  lemma ConservationTheorem(types: seq<char>, bootMode: bool, es: seq<Event>)
    requires CanRun(Start(types, bootMode), es)
    ensures var s := Run(Start(types, bootMode), es);
            |s.d.children| == |Started(s)| + s.taken - s.dropped
  {
    SoundnessTheorem(types, bootMode, es);
  }

  /** In every reachable state out of boot mode, a recorded booster that has not been reaped was
      forked in normal mode or has been sent SIGTERM. */
  lemma BootModeTheorem(types: seq<char>, bootMode: bool, es: seq<Event>)
    requires CanRun(Start(types, bootMode), es)
    ensures var s := Run(Start(types, bootMode), es);
            !s.d.bootMode ==>
              forall t | t in s.d.typeToPid && s.d.typeToPid[t] in s.w.holder ::
                && KnownPid(s.w, s.d.typeToPid[t])
                && var p := s.w.procs[s.w.holder[s.d.typeToPid[t]]]; !p.bootFork || p.termSent
  {
    SoundnessTheorem(types, bootMode, es);
  }

  // ---------- What a sound state means ----------

  lemma LivesAreHeld(s: Sys)
    requires Kernel(s)
    ensures forall k | 0 <= k < |s.w.procs| && s.w.procs[k].status.Live? :: Holds(s.w, k)
  {
  }

  lemma ChildPid(s: Sys, i: nat)
    requires Kernel(s) && i < |s.d.children|
    ensures s.d.children[i] != 0 && KnownPid(s.w, s.d.children[i])
    ensures s.w.procs[s.w.holder[s.d.children[i]]].pid == s.d.children[i]
  {
    assert s.d.children[i] in s.w.holder;
  }

  /** When the daemon sleeps in select with no SIGCHLD on its way, every child is alive. */
  lemma SleepingMeansAllReaped(s: Sys)
    requires Sound(s) && !s.pc.Scanning? && !s.w.chldPending && s.w.chldPipe == 0
    ensures forall p | p in s.w.holder :: s.w.procs[s.w.holder[p]].status.Live?
  {
    forall p | p in s.w.holder ensures s.w.procs[s.w.holder[p]].status.Live? {
      assert p in s.d.children;
      var j :| 0 <= j < |s.d.children| && s.d.children[j] == p;
      assert !ZombiePid(s.w, s.d.children[j]);
    }
  }

  // ---------- Leaving boot mode ----------

  /** Out of boot mode, once every booster that was sent SIGTERM has been reaped, each recorded
      booster is one that was forked in normal mode. */
  lemma BootModeIsLeft(s: Sys)
    requires Sound(s) && !s.d.bootMode
    requires forall p | p in s.w.holder :: !s.w.procs[s.w.holder[p]].termSent
    ensures forall t | t in s.d.typeToPid && s.d.typeToPid[t] in s.w.holder ::
      KnownPid(s.w, s.d.typeToPid[t]) && !s.w.procs[s.w.holder[s.d.typeToPid[t]]].bootFork
  {
  }

  /** Boot mode never returns, and every booster forked after it was left is a normal-mode one. */
  lemma {:induction false} NormalModeForGood(s: Sys, es: seq<Event>, from: nat)
    requires !s.d.bootMode && CanRun(s, es) && from <= |s.w.procs|
    requires forall k | from <= k < |s.w.procs| :: !s.w.procs[k].bootFork
    ensures !Run(s, es).d.bootMode && |Run(s, es).w.procs| >= |s.w.procs|
    ensures forall k | from <= k < |Run(s, es).w.procs| :: !Run(s, es).w.procs[k].bootFork
    decreases |es|
  {
    hide Step;
    if es != [] {
      NoBootFork(s, es[0], from);
      NormalModeForGood(Step(s, es[0]), es[1..], from);
    }
  }

  lemma NoBootFork(s: Sys, e: Event, from: nat)
    requires !s.d.bootMode && Enabled(s, e) && from <= |s.w.procs|
    requires forall k | from <= k < |s.w.procs| :: !s.w.procs[k].bootFork
    ensures var s' := Step(s, e);
            && !s'.d.bootMode && |s'.w.procs| >= |s.w.procs|
            && forall k | from <= k < |s'.w.procs| :: !s'.w.procs[k].bootFork
  {
    if e.Env? {
      EnvFrame(s.w, e.env);
      hide EnvStep;
    } else {
      DaemonForksAreNormal(s, e.dmn);
      hide DaemonStep;
    }
  }

  /** What SIGUSR1 does: boot mode is off, and if it was on, SIGTERM has gone to every process that holds
      a nonzero pid recorded for a type, and to nobody else. Nothing else happens. */
  lemma Usr1LeavesBootMode(s: Sys)
    requires DaemonEnabled(s, TakeUsr1)
    ensures var s' := Step(s, Dmn(TakeUsr1));
            && !s'.d.bootMode && s'.d == s.d.(bootMode := false)
            && s'.w == s.w.(procs := s'.w.procs, usr1Pipe := s.w.usr1Pipe - 1) && |s'.w.procs| == |s.w.procs|
            && forall k | 0 <= k < |s.w.procs| ::
                 var p := s.w.procs[k];
                 && (s'.w.procs[k] == p || s'.w.procs[k] == p.(termSent := true))
                 && (s'.w.procs[k].termSent <==>
                       p.termSent || (s.d.bootMode && p.pid in s.w.holder && s.w.holder[p.pid] == k && p.pid != 0
                                      && exists t :: t in s.d.typeToPid && s.d.typeToPid[t] == p.pid))
  {
    TermFrame(s.w.(usr1Pipe := s.w.usr1Pipe - 1), RecordedPids(s.d));
    hide SendTerm;
  }

  /** Boot mode is on as long as it was on at first and no SIGUSR1 has been taken, and no longer. */
  lemma {:induction false} BootModeIff(s: Sys, es: seq<Event>)
    requires CanRun(s, es)
    ensures Run(s, es).d.bootMode <==> s.d.bootMode && Dmn(TakeUsr1) !in es
    decreases |es|
  {
    hide Step;
    if es != [] {
      ModeStep(s, es[0]);
      BootModeIff(Step(s, es[0]), es[1..]);
      assert es == [es[0]] + es[1..];
    }
  }

  lemma ModeStep(s: Sys, e: Event)
    requires Enabled(s, e)
    ensures Step(s, e).d.bootMode <==> s.d.bootMode && e != Dmn(TakeUsr1)
  {
    if e == Dmn(TakeUsr1) {
      Usr1LeavesBootMode(s);
      hide Step;
    } else {
      hide TypeForPid, Spawn, Bury, FreshPid, ZombiePid, RecordedPids, SendTerm;
    }
  }

  /** At most one process is new, and that is an idle one in the given mode. */
  ghost predicate OneMoreAtMost(w: World, w': World, boot: bool) {
    && |w.procs| <= |w'.procs| <= |w.procs| + 1
    && (|w'.procs| > |w.procs| ==>
          var p := w'.procs[|w.procs|];
          p.bootFork == boot && p.stage == Waiting && p.status == Live && !p.termSent && p.pid != 0)
  }

  lemma ReapForksOne(s: Sys, newPid: Pid)
    requires DaemonEnabled(s, ScanReap(newPid))
    ensures OneMoreAtMost(s.w, AfterReap(s, newPid).w, s.d.bootMode)
  {
    hide TypeForPid, Reap, Holds;
  }

  lemma OthersForkOne(s: Sys, e: DaemonEvent)
    requires DaemonEnabled(s, e) && !e.ScanReap? && !e.TakeUsr1?
    ensures OneMoreAtMost(s.w, DaemonStep(s, e).w, s.d.bootMode)
  {
    hide ZombiePid, ReadAnnouncement, ForkBooster, AfterReap, EnterNormalMode, Holds;
  }

  /** A step forks at most one process, and that is an idle one that inherits the daemon's mode. */
  lemma ForksInheritMode(s: Sys, e: Event)
    requires Enabled(s, e)
    ensures var w, w' := s.w, Step(s, e).w;
            && |w.procs| <= |w'.procs| <= |w.procs| + 1
            && (|w'.procs| > |w.procs| ==>
                  var p := w'.procs[|w.procs|];
                  p.bootFork == s.d.bootMode && p.stage == Waiting && p.status == Live && !p.termSent && p.pid != 0)
  {
    if e.Env? {
      EnvFrame(s.w, e.env);
      hide EnvStep;
    } else if e.dmn.TakeUsr1? {
      Usr1LeavesBootMode(s);
      hide Step;
    } else if e.dmn.ScanReap? {
      ReapForksOne(s, e.dmn.newPid);
      hide AfterReap;
    } else {
      OthersForkOne(s, e.dmn);
      hide DaemonStep;
    }
  }

  /** SIGUSR1 from the moment it is raised: the booster forked in boot mode is sent SIGTERM. */
  lemma Usr1Example() returns (es: seq<Event>)
    ensures es == [Dmn(BootFork(1)), Dmn(BootDone), Env(RaiseUsr1), Env(DeliverUsr1), Dmn(Wake), Dmn(TakeUsr1)]
    ensures CanRun(Start(['m'], true), es)
    ensures var s := Run(Start(['m'], true), es);
            !s.d.bootMode && s.w.procs == [Proc(1, 'm', true, Waiting, Live, true)]
  {
    hide Run, CanRun, TypeForPid, Step;
    es := Usr1IsReported();
    var s := Run(Start(['m'], true), es);
    assert s.d.typeToPid['m'] == 1;
    Usr1LeavesBootMode(s);
    es := Extend(Start(['m'], true), es, Dmn(TakeUsr1));
  }

  lemma Usr1IsReported() returns (es: seq<Event>)
    ensures es == [Dmn(BootFork(1)), Dmn(BootDone), Env(RaiseUsr1), Env(DeliverUsr1), Dmn(Wake)]
    ensures CanRun(Start(['m'], true), es)
    ensures var s := Run(Start(['m'], true), es);
            && s.d == DaemonState([1], map['m' := 1], map[], true) && s.pc == Handling(false, false, false, true)
            && s.w.procs == [Proc(1, 'm', true, Waiting, Live, false)] && s.w.holder == map[1 := 0] && s.w.usr1Pipe == 1
  {
    hide Run, CanRun, TypeForPid;
    var s := Start(['m'], true);
    EmptyRun(s);
    es := Extend(s, [], Dmn(BootFork(1)));
    es := Extend(s, es, Dmn(BootDone));
    es := Extend(s, es, Env(RaiseUsr1));
    es := Extend(s, es, Env(DeliverUsr1));
    es := Extend(s, es, Dmn(Wake));
    assert Run(s, es).w.procs == [Proc(1, 'm', true, Waiting, Live, false)];
  }

  // ---------- SIGTERM ----------

  /** SIGTERM from the moment it is raised. */
  lemma TermExample() returns (es: seq<Event>)
    ensures es == [Dmn(BootDone), Env(RaiseTerm), Env(DeliverTerm), Dmn(Wake), Dmn(TakeTerm)]
    ensures CanRun(Start([], false), es) && Run(Start([], false), es).pc == Stopped
  {
    hide Run, CanRun, TypeForPid;
    var s := Start([], false);
    EmptyRun(s);
    es := Extend(s, [], Dmn(BootDone));
    es := Extend(s, es, Env(RaiseTerm));
    es := Extend(s, es, Env(DeliverTerm));
    es := Extend(s, es, Dmn(Wake));
    es := Extend(s, es, Dmn(TakeTerm));
  }

  /** SIGTERM has been reported and will be taken in this turn. */
  predicate Doomed(s: Sys) {
    match s.pc
    case Handling(_, _, term, _) => term
    case Scanning(_, term, _) => term
    case Stopped => true
    case _ => false
  }

  /** Once select has reported SIGTERM the daemon never gets back to select; it does not leave boot mode
      any more, even if SIGUSR1 was reported with it; and taking SIGTERM ends it for good. */
  lemma {:induction false} TermIsFinal(s: Sys, es: seq<Event>)
    requires Doomed(s) && CanRun(s, es)
    ensures Doomed(Run(s, es)) && Run(s, es).d.bootMode == s.d.bootMode
    ensures s.pc.Stopped? || Dmn(TakeTerm) in es ==> Run(s, es).pc.Stopped?
    decreases |es|
  {
    if es != [] {
      TermStep(s, es[0]);
      hide Step;
      TermIsFinal(Step(s, es[0]), es[1..]);
      assert es == [es[0]] + es[1..];
    }
  }

  lemma TermStep(s: Sys, e: Event)
    requires Doomed(s) && Enabled(s, e)
    ensures Doomed(Step(s, e)) && Step(s, e).d.bootMode == s.d.bootMode
    ensures s.pc.Stopped? || e == Dmn(TakeTerm) ==> Step(s, e).pc.Stopped?
  {
    hide TypeForPid, Spawn, Bury, FreshPid, ZombiePid, EnvStep, EnvEnabled, ReadAnnouncement;
    if e.Dmn? && e.dmn.TakeAnnouncement? {
      ReadKeepsMode(s.d, s.w.pipe[0].kind, s.w.pipe[0].invoker, e.dmn.newPid);
    }
  }

  lemma ReadKeepsMode(d: DaemonState, kind: char, invoker: int, newPid: Pid)
    ensures ReadAnnouncement(d, kind, invoker, newPid).bootMode == d.bootMode
  {
  }

  lemma DaemonForksAreNormal(s: Sys, e: DaemonEvent)
    requires !s.d.bootMode && DaemonEnabled(s, e)
    ensures var s' := DaemonStep(s, e);
            && !s'.d.bootMode
            && |s'.w.procs| >= |s.w.procs|
            && (forall k | 0 <= k < |s.w.procs| :: s'.w.procs[k] == s.w.procs[k])
            && (forall k | |s.w.procs| <= k < |s'.w.procs| :: !s'.w.procs[k].bootFork)
  {
    hide TypeForPid, FreshPid, ZombiePid;
  }
}
