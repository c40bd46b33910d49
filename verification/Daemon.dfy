/**
 The launcher daemon as an object that updates its fields in place. Each method is tied to the
 step system: what it does, with other processes acting between its system calls, is a run.
*/
module LauncherDaemon {
  import opened Supervisor
  import opened SupervisorTable
  import opened SupervisorProgress
  import opened SupervisorSafety
  import opened SupervisorPool

  /** `whole` says that announcements arrive whole. */
  predicate MayHappen(w: World, e: EnvEvent, whole: bool) {
    EnvEnabled(w, e) && !(whole && e.Garble?)
  }

  /** What happens to the world while the daemon is between two system calls: the actions of
      `batch` that may happen, in order. */
  function Interference(w: World, batch: seq<EnvEvent>, whole: bool): World
    decreases |batch|
  {
    if batch == [] then w
    else Interference(if MayHappen(w, batch[0], whole) then EnvStep(w, batch[0]) else w, batch[1..], whole)
  }

  ghost function InterferenceTrace(w: World, batch: seq<EnvEvent>, whole: bool): seq<Event>
    decreases |batch|
  {
    if batch == [] then []
    else if MayHappen(w, batch[0], whole) then
      [Env(batch[0])] + InterferenceTrace(EnvStep(w, batch[0]), batch[1..], whole)
    else InterferenceTrace(w, batch[1..], whole)
  }

  ghost function Exits(batch: seq<EnvEvent>): nat {
    if batch == [] then 0 else (if batch[0].Die? then 1 else 0) + Exits(batch[1..])
  }

  ghost function AllExits(script: seq<seq<EnvEvent>>): nat {
    if script == [] then 0 else Exits(script[0]) + AllExits(script[1..])
  }

  lemma {:induction false} InterferenceIsARun(s: Sys, batch: seq<EnvEvent>, whole: bool)
    ensures var es := InterferenceTrace(s.w, batch, whole);
            && CanRun(s, es) && Run(s, es) == s.(w := Interference(s.w, batch, whole))
            && (forall i | 0 <= i < |es| :: es[i].Env?) && (whole ==> ObeysA(es))
            && Deaths(es) <= Exits(batch)
    decreases |batch|
  {
    if batch != [] {
      if MayHappen(s.w, batch[0], whole) {
        var s1 := Step(s, Env(batch[0]));
        InterferenceIsARun(s1, batch[1..], whole);
        var rest := InterferenceTrace(s1.w, batch[1..], whole);
        assert ([Env(batch[0])] + rest)[1..] == rest;
      } else {
        InterferenceIsARun(s, batch[1..], whole);
      }
    }
  }

  /** The kernel and the other processes, as the daemon meets them through system calls. `script`
      says what the others do each time the daemon is about to make one, and `shorts` which of its
      reads inside an announcement come up short. If announcements arrive whole, none does. */
  class Kernel {
    const whole: bool
    var w: World
    var script: seq<seq<EnvEvent>>
    var shorts: seq<bool>

    constructor (whole: bool, script: seq<seq<EnvEvent>>, shorts: seq<bool>)
      ensures w == EMPTY_WORLD && this.whole == whole && this.script == script && this.shorts == shorts
    {
      w := EMPTY_WORLD;
      this.whole, this.script, this.shorts := whole, script, shorts;
    }

    method ReadsShort() returns (short: bool)
      modifies `shorts
      ensures short ==> !whole
    {
      if shorts == [] {
        return false;
      }
      short := shorts[0] && !whole;
      shorts := shorts[1..];
    }

    method Interfere()
      modifies `w, `script
      ensures script == if old(script) == [] then [] else old(script)[1..]
      ensures w == Interference(old(w), if old(script) == [] then [] else old(script)[0], whole)
    {
      if script != [] {
        var batch := script[0];
        script := script[1..];
        var n := 0;
        while n < |batch|
          invariant 0 <= n <= |batch|
          invariant script == old(script)[1..]
          invariant Interference(w, batch[n..], whole) == Interference(old(w), batch, whole)
        {
          if MayHappen(w, batch[n], whole) {
            w := EnvStep(w, batch[n]);
          }
          n := n + 1;
        }
      }
    }

    method Fork(kind: char, boot: bool) returns (newPid: Pid)
      modifies `w
      ensures FreshPid(old(w), newPid) && w == Spawn(old(w), kind, boot, newPid)
    {
      ghost var free := FreshPidExists(w);
      newPid :| FreshPid(w, newPid);
      w := Spawn(w, kind, boot, newPid);
    }

    /** waitpid with WNOHANG. `booster` only names the process for the record of signals. */
    method WaitPid(pid: Pid) returns (reaped: Pid, how: Death, booster: nat)
      requires KnownPid(w, pid) && pid != 0
      modifies `w
      ensures reaped == if ZombiePid(old(w), pid) then pid else 0
      ensures reaped == 0 ==> w == old(w)
      ensures reaped != 0 ==> booster == old(w).holder[pid] && Dead(how) == old(w).procs[booster].status
                              && w == old(w).(holder := old(w).holder - {pid})
    {
      booster := w.holder[pid];
      match w.procs[booster].status
      case Live =>
        reaped, how := 0, Exited(0);
      case Dead(d) =>
        reaped, how := pid, d;
        w := w.(holder := w.holder - {pid});
    }

    method KillInvoker(target: int, signal: int, booster: nat)
      modifies `w
      ensures w == old(w).(kills := old(w).kills + [KillRecord(target, signal, booster)])
    {
      w := w.(kills := w.kills + [KillRecord(target, signal, booster)]);
    }

    method Terminate(pid: Pid)
      modifies `w
      ensures w == SendTerm(old(w), {pid})
    {
      w := SendTerm(w, {pid});
    }
  }

  lemma SendTermTwice(w: World, a: set<Pid>, b: set<Pid>)
    ensures SendTerm(SendTerm(w, a), b) == SendTerm(w, a + b)
  {
    var w1 := SendTerm(w, a);
    assert forall k | 0 <= k < |w.procs| :: Holds(w1, k) == Holds(w, k);
    assert SendTerm(w1, b).procs == SendTerm(w, a + b).procs;
  }

  lemma SendTermNobody(w: World)
    ensures SendTerm(w, {}) == w
  {
    assert SendTerm(w, {}).procs == w.procs;
  }

  class Daemon {
    var children: seq<Pid>
    var boosterTypeToPid: map<char, Pid>
    var boosterPidToInvokerPid: map<Pid, int>
    var bootMode: bool
    const kernel: Kernel
    const types: seq<char>
    ghost var taken: nat
    ghost var dropped: nat

    ghost function State(): DaemonState
      reads this
    {
      DaemonState(children, boosterTypeToPid, boosterPidToInvokerPid, bootMode)
    }

    /** The whole system with the daemon at `pc`. */
    ghost function At(pc: Pc): Sys
      reads this, kernel
    {
      Sys(types, State(), kernel.w, pc, taken, dropped)
    }

    constructor (types: seq<char>, bootMode: bool, kernel: Kernel)
      ensures this.types == types && this.kernel == kernel
      ensures kernel.w == EMPTY_WORLD ==> At(Booting(0)) == Start(types, bootMode)
    {
      children, boosterTypeToPid, boosterPidToInvokerPid := [], map[], map[];
      this.bootMode := bootMode;
      this.kernel := kernel;
      this.types := types;
      taken, dropped := 0, 0;
    }

    method SetPidToBooster(kind: char, pid: Pid)
      modifies `boosterTypeToPid
      ensures boosterTypeToPid == old(boosterTypeToPid)[kind := pid]
    {
      boosterTypeToPid := boosterTypeToPid[kind := pid];
    }

    /** Walks the map in key order, as the iterator of a std::map does. */
    method BoosterTypeForPid(pid: Pid) returns (kind: char)
      ensures kind == TypeForPid(boosterTypeToPid, pid)
    {
      var rest := boosterTypeToPid.Keys;
      while rest != {}
        invariant rest <= boosterTypeToPid.Keys
        invariant forall t | t in boosterTypeToPid && t !in rest :: boosterTypeToPid[t] != pid
        decreases |rest|
      {
        LeastTypeExists(rest);
        var t :| t in rest && forall u | u in rest :: t <= u;
        if boosterTypeToPid[t] == pid {
          return t;
        }
        rest := rest - {t};
      }
      kind := '\0';
    }

    method BoosterPidForType(kind: char) returns (pid: Pid)
      ensures kind in boosterTypeToPid ==> pid == boosterTypeToPid[kind]
      ensures kind !in boosterTypeToPid ==> pid == 0
    {
      pid := if kind in boosterTypeToPid then boosterTypeToPid[kind] else 0;
    }

    method ForkOne(kind: char) returns (newPid: Pid)
      modifies this, kernel`w
      ensures FreshPid(old(kernel.w), newPid)
      ensures State() == ForkBooster(old(State()), kind, newPid)
      ensures kernel.w == Spawn(old(kernel.w), kind, bootMode, newPid)
      ensures taken == old(taken) && dropped == old(dropped)
    {
      SetPidToBooster(kind, 0);
      newPid := kernel.Fork(kind, bootMode);
      children := children + [newPid];
      SetPidToBooster(kind, newPid);
    }

    /** The other processes act; the daemon stays where it is. */
    method Yield(ghost pc: Pc) returns (ghost es: seq<Event>)
      modifies kernel
      ensures CanRun(old(At(pc)), es) && Run(old(At(pc)), es) == At(pc)
      ensures At(pc) == old(At(pc)).(w := kernel.w)
      ensures (forall i | 0 <= i < |es| :: es[i].Env?) && (kernel.whole ==> ObeysA(es))
      ensures AllExits(kernel.script) + Deaths(es) <= AllExits(old(kernel.script))
    {
      ghost var batch := if kernel.script == [] then [] else kernel.script[0];
      InterferenceIsARun(At(pc), batch, kernel.whole);
      es := InterferenceTrace(kernel.w, batch, kernel.whole);
      kernel.Interfere();
    }

    /** Reads one announcement, notes its invoker and forks the announcer's successor; or fails, when
        the pid or the delay is not there in full, and then the daemon exits. */
    method ReadFromBoosterPipe(ghost pc: Pc) returns (ok: bool, newPid: Pid)
      requires pc.Handling? && pc.announce && kernel.w.pipe != []
      modifies this, kernel`w, kernel`shorts
      ensures ok ==> DaemonEnabled(old(At(pc)), TakeAnnouncement(newPid))
                     && At(pc.(announce := false)) == DaemonStep(old(At(pc)), TakeAnnouncement(newPid))
      ensures !ok ==> !kernel.whole && DaemonEnabled(old(At(pc)), ReadFails)
                      && At(Stopped) == DaemonStep(old(At(pc)), ReadFails)
    {
      var short := kernel.ReadsShort();
      if short {
        return false, 0;
      }
      ok := true;
      var m := kernel.w.pipe[0];
      kernel.w := kernel.w.(pipe := kernel.w.pipe[1..]);
      NoteInvoker(m.kind, m.invoker);
      hide RecordInvoker;
      newPid := ForkOne(m.kind);
      taken := taken + 1;
    }

    /** Maps the booster recorded for the type to its invoker, unless there is none of the two. */
    method NoteInvoker(kind: char, invoker: int)
      modifies `boosterPidToInvokerPid
      ensures State() == RecordInvoker(old(State()), kind, invoker)
    {
      if invoker != 0 {
        var boosterPid := BoosterPidForType(kind);
        if boosterPid != 0 {
          boosterPidToInvokerPid := boosterPidToInvokerPid[boosterPid := invoker];
        }
      }
    }

    /** The daemon's part in burying a child: it is erased, its invoker is signalled if a signal
        killed it, and the entry for the invoker is removed. */
    method ForgetChild(i: nat, reaped: Pid, how: Death, booster: nat, ghost before: Sys)
      requires before.pc.Scanning? && before.pc.i == i && AtZombie(before)
      requires At(before.pc) == before.(w := before.w.(holder := before.w.holder - {reaped}))
      requires reaped == before.d.children[i] && booster == before.w.holder[reaped]
      requires Dead(how) == before.w.procs[booster].status
      modifies `children, `boosterPidToInvokerPid, kernel`w
      ensures At(before.pc) == before.(d := Forget(before.d, i), w := Buried(before))
    {
      children := children[..i] + children[i + 1..];
      if reaped in boosterPidToInvokerPid {
        if how.Killed? {
          kernel.KillInvoker(boosterPidToInvokerPid[reaped], how.signal, booster);
        }
        boosterPidToInvokerPid := boosterPidToInvokerPid - {reaped};
      }
      assert kernel.w == Buried(before);
      assert State() == Forget(before.d, i);
    }

    /** The child at `i` has been found dead. */
    method ReapChild(i: nat, reaped: Pid, how: Death, booster: nat, ghost before: Sys) returns (newPid: Pid)
      requires before.pc.Scanning? && before.pc.i == i && AtZombie(before)
      requires At(before.pc) == before.(w := before.w.(holder := before.w.holder - {reaped}))
      requires reaped == before.d.children[i] && booster == before.w.holder[reaped]
      requires Dead(how) == before.w.procs[booster].status
      modifies this, kernel`w
      ensures DaemonEnabled(before, ScanReap(newPid))
      ensures At(before.pc) == DaemonStep(before, ScanReap(newPid))
    {
      hide TypeForPid;
      ForgetChild(i, reaped, how, booster, before);
      hide Forget, Bury;
      var kind := BoosterTypeForPid(reaped);
      if kind != '\0' {
        newPid := ForkOne(kind);
      } else {
        ghost var free := FreshPidExists(kernel.w);
        newPid :| FreshPid(kernel.w, newPid);
        dropped := dropped + 1;
      }
    }

    /** waitpid for child `i`, and what follows from its answer. */
    method CheckChild(i: nat, ghost term: bool, ghost usr1: bool) returns (next: nat, ghost e: DaemonEvent)
      requires i < |children| && KnownPid(kernel.w, children[i]) && children[i] != 0
      modifies this, kernel`w
      ensures e.ScanLive? || e.ScanReap?
      ensures DaemonEnabled(old(At(Scanning(i, term, usr1))), e)
      ensures At(Scanning(next, term, usr1)) == DaemonStep(old(At(Scanning(i, term, usr1))), e)
    {
      ghost var before := At(Scanning(i, term, usr1));
      var reaped, how, booster := kernel.WaitPid(children[i]);
      if reaped != 0 {
        var newPid := ReapChild(i, reaped, how, booster, before);
        next, e := i, ScanReap(newPid);
      } else {
        next, e := i + 1, ScanLive;
      }
    }

    /** One turn of the reap loop: the other processes act, then child `i` is looked at. */
    method LookAtChild(i: nat, ghost term: bool, ghost usr1: bool) returns (next: nat, ghost es: seq<Event>)
      requires i < |children| && Sound(At(Scanning(i, term, usr1)))
      modifies this, kernel
      ensures CanRun(old(At(Scanning(i, term, usr1))), es)
      ensures Run(old(At(Scanning(i, term, usr1))), es) == At(Scanning(next, term, usr1))
      ensures (forall n | 0 <= n < |es| :: ScanEvent(es[n])) && (kernel.whole ==> ObeysA(es))
      ensures next <= |children| && Sound(At(Scanning(next, term, usr1)))
      ensures 0 <= ScanWork(At(Scanning(next, term, usr1)))
      ensures ScanWork(At(Scanning(next, term, usr1))) + AllExits(kernel.script)
              < old(ScanWork(At(Scanning(i, term, usr1))) + AllExits(kernel.script))
    {
      hide Run, CanRun, Sound;
      ghost var pc := Scanning(i, term, usr1);
      ghost var start := At(pc);
      es := Yield(pc);
      OthersDuringScan(start, es);
      ghost var before := At(pc);
      ChildPid(before, i);
      ghost var e;
      next, e := CheckChild(i, term, usr1);
      ScanStepWork(before, Dmn(e));
      StillAtWork(At(Scanning(next, term, usr1)));
      es := Extend(start, es, Dmn(e));
    }

    /** Waits for every child that is dead, while other processes go on acting. The loop ends after
        any finite number of exits, and what it does is a run of scan steps. */
    method ReapZombies(ghost term: bool, ghost usr1: bool) returns (ghost es: seq<Event>)
      requires Sound(At(Scanning(0, term, usr1)))
      modifies this, kernel
      ensures CanRun(old(At(Scanning(0, term, usr1))), es)
      ensures Run(old(At(Scanning(0, term, usr1))), es) == At(Scanning(|children|, term, usr1))
      ensures (forall n | 0 <= n < |es| :: ScanEvent(es[n])) && (kernel.whole ==> ObeysA(es))
      ensures Sound(At(Scanning(|children|, term, usr1)))
    {
      hide Run, CanRun, Sound;
      ghost var start := At(Scanning(0, term, usr1));
      var i: nat := 0;
      EmptyRun(start);
      es := [];
      while i != |children|
        invariant i <= |children|
        invariant CanRun(start, es) && Run(start, es) == At(Scanning(i, term, usr1))
        invariant (forall n | 0 <= n < |es| :: ScanEvent(es[n])) && (kernel.whole ==> ObeysA(es))
        invariant Sound(At(Scanning(i, term, usr1)))
        decreases ScanWork(At(Scanning(i, term, usr1))) + AllExits(kernel.script)
      {
        ghost var more;
        i, more := LookAtChild(i, term, usr1);
        RunsCompose(start, es, more);
        es := es + more;
      }
    }

    // ---------- Boot mode ----------

    /** SIGTERM to every recorded booster; the map itself is left alone. */
    method KillBoosters()
      modifies kernel`w
      ensures kernel.w == SendTerm(old(kernel.w), RecordedPids(State()))
    {
      var rest := boosterTypeToPid.Keys;
      ghost var done: set<Pid> := {};
      SendTermNobody(kernel.w);
      while rest != {}
        invariant rest <= boosterTypeToPid.Keys
        invariant done == set t | t in boosterTypeToPid && t !in rest && boosterTypeToPid[t] != 0 :: boosterTypeToPid[t]
        invariant kernel.w == SendTerm(old(kernel.w), done)
        decreases |rest|
      {
        LeastTypeExists(rest);
        var t :| t in rest && forall u | u in rest :: t <= u;
        if boosterTypeToPid[t] != 0 {
          SendTermTwice(old(kernel.w), done, {boosterTypeToPid[t]});
          kernel.Terminate(boosterTypeToPid[t]);
          done := done + {boosterTypeToPid[t]};
        }
        rest := rest - {t};
      }
      assert done == RecordedPids(State());
    }

    method LeaveBootMode(ghost pc: Pc)
      modifies `bootMode, kernel`w
      ensures At(pc) == EnterNormalMode(old(At(pc)))
      ensures !bootMode
      ensures kernel.w == if old(bootMode) then SendTerm(old(kernel.w), RecordedPids(State())) else old(kernel.w)
    {
      if bootMode {
        bootMode := false;
        KillBoosters();
      }
    }

    // ---------- Start-up and the main loop ----------

    /** Forks the first booster of each type. */
    method ForkBoosters() returns (ghost es: seq<Event>)
      requires Sound(At(Booting(0)))
      modifies this, kernel
      ensures (kernel.whole ==> ObeysA(es)) && CanRun(old(At(Booting(0))), es)
      ensures Run(old(At(Booting(0))), es) == At(Selecting) && Sound(At(Selecting))
    {
      hide Run, CanRun, Sound;
      ghost var start := At(Booting(0));
      EmptyRun(start);
      es := [];
      var n: nat := 0;
      while n < |types|
        invariant n <= |types|
        invariant (kernel.whole ==> ObeysA(es)) && CanRun(start, es) && Run(start, es) == At(Booting(n))
      {
        ghost var others := Yield(Booting(n));
        RunsCompose(start, es, others);
        es := es + others;
        var newPid := ForkOne(types[n]);
        es := Extend(start, es, Dmn(BootFork(newPid)));
        n := n + 1;
      }
      es := Extend(start, es, Dmn(BootDone));
      RunKeepsSound(start, es);
    }

    method HandlePipe(announce: bool, ghost pc: Pc) returns (failed: bool, ghost es: seq<Event>)
      requires pc.Handling? && pc.announce == announce && Sound(At(pc))
      modifies this, kernel
      ensures (kernel.whole ==> ObeysA(es)) && CanRun(old(At(pc)), es)
      ensures var after := if failed then Stopped else pc.(announce := false);
              Run(old(At(pc)), es) == At(after) && Sound(At(after))
      ensures (announce && !failed ==> Takes(es) > 0) && (failed ==> !kernel.whole)
    {
      hide Run, CanRun;
      ghost var start := At(pc);
      EmptyRun(start);
      es, failed := [], false;
      if announce {
        es := Yield(pc);
        RunKeepsSound(start, es);
        var ok, newPid := ReadFromBoosterPipe(pc);
        ghost var e := if ok then TakeAnnouncement(newPid) else ReadFails;
        TakesAdd(es, [Dmn(e)]);
        es := Extend(start, es, Dmn(e));
        RunKeepsSound(start, es);
        failed := !ok;
      }
    }

    /** Takes one byte from the SIGCHLD pipe. */
    method TakeChldByte(ghost term: bool, ghost usr1: bool) returns (ghost es: seq<Event>)
      requires Sound(At(Handling(false, true, term, usr1)))
      modifies this, kernel
      ensures (kernel.whole ==> ObeysA(es)) && CanRun(old(At(Handling(false, true, term, usr1))), es)
      ensures Run(old(At(Handling(false, true, term, usr1))), es) == At(Scanning(0, term, usr1))
      ensures Sound(At(Scanning(0, term, usr1))) && Takes(es) > 0
    {
      hide Run, CanRun;
      ghost var start := At(Handling(false, true, term, usr1));
      es := Yield(Handling(false, true, term, usr1));
      RunKeepsSound(start, es);
      kernel.w := kernel.w.(chldPipe := kernel.w.chldPipe - 1);
      TakesAdd(es, [Dmn(StartScan)]);
      es := Extend(start, es, Dmn(StartScan));
      RunKeepsSound(start, es);
    }

    method HandleChld(chld: bool, ghost term: bool, ghost usr1: bool) returns (ghost es: seq<Event>)
      requires Sound(At(Handling(false, chld, term, usr1)))
      modifies this, kernel
      ensures (kernel.whole ==> ObeysA(es)) && CanRun(old(At(Handling(false, chld, term, usr1))), es)
      ensures Run(old(At(Handling(false, chld, term, usr1))), es) == At(Handling(false, false, term, usr1))
      ensures Sound(At(Handling(false, false, term, usr1))) && (chld ==> Takes(es) > 0)
    {
      hide Run, CanRun, Sound;
      ghost var start := At(Handling(false, chld, term, usr1));
      EmptyRun(start);
      es := [];
      if chld {
        es := TakeChldByte(term, usr1);
        ghost var scan := ReapZombies(term, usr1);
        RunsCompose(start, es, scan);
        QuietStepKeepsSound(At(Scanning(|children|, term, usr1)), ScanEnd);
        TakesAdd(es, scan);
        TakesAdd(es + scan, [Dmn(ScanEnd)]);
        es := Extend(start, es + scan, Dmn(ScanEnd));
      }
    }

    method HandleTerm(term: bool, ghost usr1: bool) returns (ghost es: seq<Event>)
      requires Sound(At(Handling(false, false, term, usr1)))
      modifies this, kernel
      ensures (kernel.whole ==> ObeysA(es)) && CanRun(old(At(Handling(false, false, term, usr1))), es)
      ensures var pc := if term then Stopped else Handling(false, false, false, usr1);
              Run(old(At(Handling(false, false, term, usr1))), es) == At(pc) && Sound(At(pc))
      ensures term ==> Takes(es) > 0
    {
      hide Run, CanRun;
      ghost var start := At(Handling(false, false, term, usr1));
      EmptyRun(start);
      es := [];
      if term {
        es := Yield(Handling(false, false, true, usr1));
        RunKeepsSound(start, es);
        kernel.w := kernel.w.(termPipe := kernel.w.termPipe - 1);
        TakesAdd(es, [Dmn(TakeTerm)]);
        es := Extend(start, es, Dmn(TakeTerm));
        RunKeepsSound(start, es);
      }
    }

    method HandleUsr1(usr1: bool) returns (ghost es: seq<Event>)
      requires Sound(At(Handling(false, false, false, usr1)))
      modifies this, kernel
      ensures (kernel.whole ==> ObeysA(es)) && CanRun(old(At(Handling(false, false, false, usr1))), es)
      ensures Run(old(At(Handling(false, false, false, usr1))), es) == At(Handling(false, false, false, false))
      ensures Sound(At(Handling(false, false, false, false)))
      ensures if usr1 then Takes(es) > 0 && !bootMode else bootMode == old(bootMode)
    {
      hide Run, CanRun;
      ghost var start := At(Handling(false, false, false, usr1));
      EmptyRun(start);
      es := [];
      if usr1 {
        es := Yield(Handling(false, false, false, true));
        RunKeepsSound(start, es);
        kernel.w := kernel.w.(usr1Pipe := kernel.w.usr1Pipe - 1);
        LeaveBootMode(Handling(false, false, false, false));
        TakesAdd(es, [Dmn(TakeUsr1)]);
        es := Extend(start, es, Dmn(TakeUsr1));
        RunKeepsSound(start, es);
      }
    }

    /** Works through the pipes that select reported, in order, and takes something out of one. The
        daemon stops on SIGTERM or when an announcement could not be read. */
    method HandleReady(announce: bool, chld: bool, term: bool, usr1: bool)
      returns (stopped: bool, ghost es: seq<Event>)
      requires Sound(At(Handling(announce, chld, term, usr1)))
      modifies this, kernel
      ensures (kernel.whole ==> ObeysA(es)) && CanRun(old(At(Handling(announce, chld, term, usr1))), es)
      ensures var pc := if stopped then Stopped else Handling(false, false, false, false);
              Run(old(At(Handling(announce, chld, term, usr1))), es) == At(pc) && Sound(At(pc))
      ensures announce || chld || term || usr1 ==> stopped || Takes(es) > 0
      ensures stopped ==> term || !kernel.whole
    {
      hide Run, CanRun, Sound;
      ghost var start := At(Handling(announce, chld, term, usr1));
      stopped, es := HandlePipe(announce, Handling(announce, chld, term, usr1));
      if stopped {
        return;
      }
      ghost var more := HandleChld(chld, term, usr1);
      RunsCompose(start, es, more);
      TakesAdd(es, more);
      es := es + more;
      more := HandleTerm(term, usr1);
      RunsCompose(start, es, more);
      TakesAdd(es, more);
      es := es + more;
      if !term {
        more := HandleUsr1(usr1);
        RunsCompose(start, es, more);
        TakesAdd(es, more);
        es := es + more;
      }
      stopped := term;
    }

    /** select: the other processes act, and then the daemon wakes up, knowing what is readable, or
        sleeps on because nothing is. */
    method Select() returns (awake: bool, announce: bool, chld: bool, term: bool, usr1: bool, ghost es: seq<Event>)
      requires Sound(At(Selecting))
      modifies this, kernel
      ensures (kernel.whole ==> ObeysA(es)) && CanRun(old(At(Selecting)), es)
      ensures awake == (announce || chld || term || usr1) == (Backlog(kernel.w) > 0)
      ensures (announce <==> kernel.w.pipe != []) && (chld <==> kernel.w.chldPipe > 0)
      ensures (term <==> kernel.w.termPipe > 0) && (usr1 <==> kernel.w.usr1Pipe > 0)
      ensures var pc := if awake then Handling(announce, chld, term, usr1) else Selecting;
              Run(old(At(Selecting)), es) == At(pc) && Sound(At(pc))
    {
      hide Run, CanRun, Sound;
      ghost var start := At(Selecting);
      es := Yield(Selecting);
      RunKeepsSound(start, es);
      announce, chld := kernel.w.pipe != [], kernel.w.chldPipe > 0;
      term, usr1 := kernel.w.termPipe > 0, kernel.w.usr1Pipe > 0;
      awake := announce || chld || term || usr1;
      if awake {
        QuietStepKeepsSound(At(Selecting), Wake);
        es := Extend(start, es, Dmn(Wake));
      }
    }

    /** One turn of the main loop. It takes something out of a pipe unless all of them are empty, or
        the daemon stops over an announcement it cannot read. */
    method Pass() returns (awake: bool, stopped: bool, ghost es: seq<Event>)
      requires Sound(At(Selecting))
      modifies this, kernel
      ensures (kernel.whole ==> ObeysA(es)) && CanRun(old(At(Selecting)), es)
      ensures var pc := if stopped then Stopped else Selecting;
              Run(old(At(Selecting)), es) == At(pc) && Sound(At(pc))
      ensures awake ==> stopped || Takes(es) > 0
      ensures !awake ==> !stopped && Backlog(kernel.w) == 0
    {
      hide Run, CanRun, Sound;
      ghost var start := At(Selecting);
      var announce, chld, term, usr1;
      awake, announce, chld, term, usr1, es := Select();
      stopped := false;
      if awake {
        ghost var more;
        stopped, more := HandleReady(announce, chld, term, usr1);
        RunsCompose(start, es, more);
        TakesAdd(es, more);
        es := es + more;
        if !stopped {
          QuietStepKeepsSound(At(Handling(false, false, false, false)), PassEnd);
          TakesAdd(es, [Dmn(PassEnd)]);
          es := Extend(start, es, Dmn(PassEnd));
        }
      }
    }

    /** The daemon from start-up through any number of turns of its main loop: whatever the other
        processes do meanwhile, what happens is a run of the step system, and the daemon's fields
        keep what such runs keep. A loop that has not stopped has taken something out of a pipe in
        each of its turns, or else it has come to a turn that found all pipes empty. */
    method Serve(turns: nat) returns (stopped: bool, ghost es: seq<Event>)
      requires At(Booting(0)) == Start(types, bootMode)
      modifies this, kernel
      ensures CanRun(Start(types, old(bootMode)), es) && (kernel.whole ==> ObeysA(es))
      ensures Run(Start(types, old(bootMode)), es) == At(if stopped then Stopped else Selecting)
      ensures Sound(At(if stopped then Stopped else Selecting))
      ensures ObeysZ(Start(types, old(bootMode)), es) ==> Records(State())
      ensures GoodTypes(types) && kernel.whole ==>
                && (ObeysR(Start(types, old(bootMode)), es) ==> PoolInv(At(if stopped then Stopped else Selecting)))
                && (Disciplined(Start(types, old(bootMode)), es) ==> Inv(At(if stopped then Stopped else Selecting)))
      ensures stopped || Takes(es) >= turns || FoundNothing(Start(types, old(bootMode)), es)
    {
      hide Run, CanRun, Sound, Disciplined, ObeysR, ObeysZ, Records, PoolInv, Inv, Takes, FoundNothing;
      ghost var start := At(Booting(0));
      EmptyRun(start);
      SoundnessTheorem(types, bootMode, []);
      es := ForkBoosters();
      stopped := false;
      var n := 0;
      while n < turns && !stopped
        invariant n <= turns
        invariant (kernel.whole ==> ObeysA(es)) && CanRun(start, es)
        invariant var pc := if stopped then Stopped else Selecting; Run(start, es) == At(pc) && Sound(At(pc))
        invariant stopped || Takes(es) >= n || FoundNothing(start, es)
      {
        ghost var more;
        var awake;
        awake, stopped, more := Pass();
        RunsCompose(start, es, more);
        TakesAdd(es, more);
        NothingAt(start, es, more);
        es := es + more;
        n := n + 1;
      }
      DisciplinePays(types, old(bootMode), es);
    }
  }

  /** At some point of the run the daemon was in select and all pipes were empty. */
  ghost predicate FoundNothing(s: Sys, es: seq<Event>) {
    exists n | 0 <= n <= |es| :: IdleAfter(s, es[..n])
  }

  ghost predicate IdleAfter(s: Sys, es: seq<Event>) {
    CanRun(s, es) && Run(s, es).pc.Selecting? && Backlog(Run(s, es).w) == 0
  }

  lemma NothingAt(s: Sys, es: seq<Event>, more: seq<Event>)
    requires CanRun(s, es + more)
    ensures FoundNothing(s, es) ==> FoundNothing(s, es + more)
    ensures Run(s, es + more).pc.Selecting? && Backlog(Run(s, es + more).w) == 0 ==> FoundNothing(s, es + more)
  {
    hide Run, CanRun;
    var all := es + more;
    if FoundNothing(s, es) {
      var n :| 0 <= n <= |es| && IdleAfter(s, es[..n]);
      assert all[..n] == es[..n];
    }
    assert all[..|all|] == all;
  }

  lemma DisciplinePays(types: seq<char>, bootMode: bool, es: seq<Event>)
    requires CanRun(Start(types, bootMode), es)
    ensures ObeysZ(Start(types, bootMode), es) ==> Records(Run(Start(types, bootMode), es).d)
    ensures GoodTypes(types) && ObeysA(es) ==>
              && (ObeysR(Start(types, bootMode), es) ==> PoolInv(Run(Start(types, bootMode), es)))
              && (Disciplined(Start(types, bootMode), es) ==> Inv(Run(Start(types, bootMode), es)))
  {
    SoundnessTheorem(types, bootMode, []);
    RunKeepsRecordsIff(Start(types, bootMode), es);
    if GoodTypes(types) && ObeysA(es) {
      StartKeepsInv(types, bootMode);
      RunKeepsPoolIff(Start(types, bootMode), es);
      if Disciplined(Start(types, bootMode), es) {
        DisciplinedRunKeepsInv(types, bootMode, es);
      }
    }
  }

  lemma StillAtWork(s: Sys)
    requires Sound(s) && s.pc.Scanning?
    ensures s.pc.i <= |s.d.children| && 0 <= ScanWork(s)
  {
  }

  lemma OthersDuringScan(s: Sys, es: seq<Event>)
    requires Sound(s) && s.pc.Scanning? && CanRun(s, es) && forall i | 0 <= i < |es| :: es[i].Env?
    ensures Sound(Run(s, es)) && Run(s, es).pc.Scanning? && ScanWork(Run(s, es)) <= ScanWork(s) + Deaths(es)
  {
    assert forall i | 0 <= i < |es| :: ScanEvent(es[i]);
    RunKeepsSound(s, es);
    ScanTerminates(s, es);
  }
}
