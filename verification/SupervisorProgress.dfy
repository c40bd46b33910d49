/**
 That the daemon gets on with its work: it is never stuck, it loses nothing that waits in its pipes,
 its reap scan ends, and each dead child is reaped after so many of its steps.
*/
module SupervisorProgress {
  import opened Supervisor
  import opened SupervisorTable

  // ---------- What the daemon has to do ----------

  /** What waits in the pipes. */
  function Backlog(w: World): nat {
    |w.pipe| + w.chldPipe + w.termPipe + w.usr1Pipe
  }

  /** Steps that take something out of a pipe. */
  predicate TakesOne(e: Event) {
    e.Dmn? && (e.dmn.TakeAnnouncement? || e.dmn.StartScan? || e.dmn.TakeTerm? || e.dmn.TakeUsr1?)
  }

  predicate BringsOne(e: Event) {
    e.Env? && (e.env.Announce? || e.env.DeliverChld? || e.env.DeliverTerm? || e.env.DeliverUsr1?)
  }

  function Takes(es: seq<Event>): nat {
    if es == [] then 0 else (if TakesOne(es[0]) then 1 else 0) + Takes(es[1..])
  }

  function Arrivals(es: seq<Event>): nat {
    if es == [] then 0 else (if BringsOne(es[0]) then 1 else 0) + Arrivals(es[1..])
  }

  /** Nothing in the pipes is lost or invented: what waits is what waited, plus what arrived, less
      what the daemon took. */
  lemma {:induction false} BacklogConserved(s: Sys, es: seq<Event>)
    requires CanRun(s, es) && ObeysA(es)
    ensures Backlog(Run(s, es).w) + Takes(es) == Backlog(s.w) + Arrivals(es)
    decreases |es|
  {
    hide Step;
    if es != [] {
      assert RuleA(es[0]);
      assert ObeysA(es[1..]);
      BacklogStep(s, es[0]);
      BacklogConserved(Step(s, es[0]), es[1..]);
    }
  }

  lemma BacklogEnv(w: World, e: EnvEvent)
    requires EnvEnabled(w, e) && !e.Garble?
    ensures Backlog(EnvStep(w, e)) == Backlog(w) + (if BringsOne(Env(e)) then 1 else 0)
  {
    hide Holds;
  }

  lemma BacklogDaemon(s: Sys, e: DaemonEvent)
    requires DaemonEnabled(s, e)
    ensures Backlog(DaemonStep(s, e).w) + (if TakesOne(Dmn(e)) then 1 else 0) == Backlog(s.w)
  {
    hide ReadAnnouncement, TypeForPid, Holds, Reap, RecordedPids, ForkBooster, FreshPid;
  }

  lemma BacklogStep(s: Sys, e: Event)
    requires Enabled(s, e) && RuleA(e)
    ensures Backlog(Step(s, e).w) + Takes([e]) == Backlog(s.w) + Arrivals([e])
  {
    assert Takes([e]) == if TakesOne(e) then 1 else 0;
    assert Arrivals([e]) == if BringsOne(e) then 1 else 0;
    hide Takes, Arrivals, EnvStep, DaemonStep, EnvEnabled, DaemonEnabled, Backlog;
    if e.Env? {
      BacklogEnv(s.w, e.env);
    } else {
      BacklogDaemon(s, e.dmn);
    }
  }

  lemma {:induction false} TakesAdd(es: seq<Event>, fs: seq<Event>)
    ensures Takes(es + fs) == Takes(es) + Takes(fs)
    decreases |es|
  {
    if es == [] {
      assert es + fs == fs;
    } else {
      assert (es + fs)[1..] == es[1..] + fs;
      TakesAdd(es[1..], fs);
    }
  }

  // ---------- The daemon is never stuck ----------

  lemma {:induction false} BoundOfPids(pids: set<Pid>) returns (bound: nat)
    ensures forall p | p in pids :: p < bound
    decreases |pids|
  {
    if pids == {} {
      bound := 0;
    } else {
      var p :| p in pids;
      var rest := BoundOfPids(pids - {p});
      bound := if rest <= p then p + 1 else rest;
      forall q | q in pids ensures q < bound {
        assert q == p || q in pids - {p};
      }
    }
  }

  lemma FreshPidExists(w: World) returns (newPid: Pid)
    ensures FreshPid(w, newPid)
  {
    var bound := BoundOfPids(w.holder.Keys);
    newPid := bound + 1;
  }

  /** As long as announcements arrive whole, the daemon can always take its next step when it is not
      in select: nothing that it reads is missing. */
  lemma NeverBlocked(types: seq<char>, bootMode: bool, es: seq<Event>) returns (e: DaemonEvent)
    requires CanRun(Start(types, bootMode), es) && ObeysA(es)
    requires !Run(Start(types, bootMode), es).pc.Selecting? && !Run(Start(types, bootMode), es).pc.Stopped?
    ensures DaemonEnabled(Run(Start(types, bootMode), es), e) && RuleA(Dmn(e))
  {
    SoundnessTheorem(types, bootMode, es);
    e := NextStep(Run(Start(types, bootMode), es));
  }

  lemma NextStep(s: Sys) returns (e: DaemonEvent)
    requires Sound(s) && !s.pc.Selecting? && !s.pc.Stopped?
    ensures DaemonEnabled(s, e) && RuleA(Dmn(e))
  {
    var newPid := FreshPidExists(s.w);
    match s.pc
    case Booting(next) => e := if next < |s.types| then BootFork(newPid) else BootDone;
    case Handling(announce, chld, term, usr1) =>
      e := if announce then TakeAnnouncement(newPid) else if chld then StartScan
           else if term then TakeTerm else if usr1 then TakeUsr1 else PassEnd;
    case Scanning(i, _, _) =>
      if i == |s.d.children| {
        e := ScanEnd;
      } else if AtZombie(s) {
        newPid := FreshPidExists(Buried(s));
        e := ScanReap(newPid);
      } else {
        e := ScanLive;
      }
  }

  // ---------- The scan ends ----------

  ghost function Zombies(s: Sys): set<Pid> {
    set p | p in s.d.children && ZombiePid(s.w, p)
  }

  /** Children the scan has still to visit, plus children that are dead. */
  ghost function ScanWork(s: Sys): int
    requires s.pc.Scanning?
  {
    |s.d.children| - s.pc.i + |Zombies(s)|
  }

  ghost predicate ScanEvent(e: Event) {
    e.Env? || e.dmn.ScanLive? || e.dmn.ScanReap?
  }

  ghost function DaemonSteps(es: seq<Event>): nat {
    if es == [] then 0 else (if es[0].Dmn? then 1 else 0) + DaemonSteps(es[1..])
  }

  ghost function Deaths(es: seq<Event>): nat {
    if es == [] then 0 else (if es[0].Env? && es[0].env.Die? then 1 else 0) + Deaths(es[1..])
  }

  lemma SubsetSize<T>(a: set<T>, b: set<T>)
    requires a <= b
    ensures |a| <= |b|
  {
    assert b == a + (b - a);
  }

  lemma EnvZombies(s: Sys, e: EnvEvent)
    requires Kernel(s) && EnvEnabled(s.w, e)
    ensures |Zombies(Step(s, Env(e)))| <= |Zombies(s)| + Deaths([Env(e)])
    ensures Zombies(s) <= Zombies(Step(s, Env(e)))
  {
    hide EnvStep;
    var s' := Step(s, Env(e));
    EnvFrame(s.w, e);
    if e.Die? {
      var bigger := Zombies(s) + {s.w.procs[e.k].pid};
      assert Zombies(s') <= bigger;
      SubsetSize(Zombies(s'), bigger);
    } else {
      assert Zombies(s') == Zombies(s);
    }
  }

  lemma ReapZombies(s: Sys, newPid: Pid)
    requires Kernel(s) && DaemonEnabled(s, ScanReap(newPid))
    ensures Zombies(AfterReap(s, newPid)) == Zombies(s) - {s.d.children[s.pc.i]}
    ensures |Zombies(AfterReap(s, newPid))| == |Zombies(s)| - 1
  {
    var pid := s.d.children[s.pc.i];
    var s' := AfterReap(s, newPid);
    hide Kernel, AfterReap;
    forall p ensures p in Zombies(s') <==> p in Zombies(s) && p != pid {
      if p in Zombies(s') {
        ReapMakesNoZombie(s, newPid, p);
        ZombieIsChild(s, p);
      }
      if p in Zombies(s) && p != pid {
        StillZombie(s, newPid, p);
      }
    }
    assert pid in Zombies(s);
  }

  lemma ZombieIsChild(s: Sys, p: Pid)
    requires Kernel(s) && ZombiePid(s.w, p)
    ensures p in s.d.children
  {
  }

  lemma StillZombie(s: Sys, newPid: Pid, p: Pid)
    requires Kernel(s) && DaemonEnabled(s, ScanReap(newPid)) && ZombiePid(s.w, p) && p != s.d.children[s.pc.i]
    ensures ZombiePid(AfterReap(s, newPid).w, p) && AfterReap(s, newPid).w.holder[p] == s.w.holder[p]
    ensures p in AfterReap(s, newPid).d.children && p != newPid
  {
    var kind := TypeForPid(s.d.typeToPid, s.d.children[s.pc.i]);
    EraseFacts(s.d.children, s.pc.i);
    BuriedFacts(s);
    assert p != newPid;
    if kind != '\0' {
      SpawnFacts(Buried(s), kind, s.d.bootMode, newPid);
    }
    hide TypeForPid, Bury;
  }

  lemma ScanStepWork(s: Sys, e: Event)
    requires Sound(s) && s.pc.Scanning? && Enabled(s, e) && ScanEvent(e)
    ensures Sound(Step(s, e)) && Step(s, e).pc.Scanning?
    ensures |Step(s, e).d.children| <= |s.d.children|
    ensures ScanWork(Step(s, e)) + DaemonSteps([e]) <= ScanWork(s) + Deaths([e])
  {
    StepKeepsSound(s, e);
    assert Kernel(s) && Ready(s) && Conserved(s);
    hide Sound, Kernel, Ready, Conserved, Zombies;
    if e.Env? {
      EnvZombies(s, e.env);
      hide EnvStep;
    } else if e.dmn.ScanReap? {
      ReapZombies(s, e.dmn.newPid);
      ReapKeepsCount(s, e.dmn.newPid);
      assert AfterReap(s, e.dmn.newPid).pc == s.pc;
      hide AfterReap;
    } else {
      SameZombies(s, e.dmn);
    }
  }

  /** However exits are interleaved with the reap scan, it takes at most one step for each child
      present at entry, each child dead at entry and each exit during the scan; and the vector it
      erases from and appends to never outgrows its length at entry. */
  lemma {:induction false} ScanTerminates(s: Sys, es: seq<Event>)
    requires Sound(s) && s.pc.Scanning? && CanRun(s, es)
    requires forall i | 0 <= i < |es| :: ScanEvent(es[i])
    ensures Run(s, es).pc.Scanning? && |Run(s, es).d.children| <= |s.d.children|
    ensures 0 <= ScanWork(Run(s, es)) && ScanWork(Run(s, es)) + DaemonSteps(es) <= ScanWork(s) + Deaths(es)
    decreases |es|
  {
    if es == [] {
      assert s.pc.i <= |s.d.children|;
    } else {
      hide Sound, ScanWork, Step;
      ScanStepWork(s, es[0]);
      ScanTerminates(Step(s, es[0]), es[1..]);
    }
  }

  // ---------- Each dead child is reaped ----------

  /** The scan in progress has not passed the child. */
  ghost predicate Ahead(s: Sys, pid: Pid) {
    s.pc.Scanning? && s.pc.i <= |s.d.children| && pid in s.d.children[s.pc.i..]
  }

  /** The child is dead, and the daemon has been told, or will meet it in the scan in progress. */
  ghost predicate Noticed(s: Sys, pid: Pid) {
    pid in s.d.children && ZombiePid(s.w, pid) && (s.w.chldPipe > 0 || Ahead(s, pid))
  }

  function One(flag: bool): nat { if flag then 1 else 0 }

  /** The steps the daemon needs from select to the end of a scan, when there are so many children and
      so many of them are dead. One more child may be forked on the way. */
  ghost function Round(s: Sys): nat {
    |s.d.children| + |Zombies(s)| + 4
  }

  /** At most so many steps of the daemon, while nobody else dies, until the child is reaped. */
  ghost function ToGo(s: Sys, pid: Pid): int {
    match s.pc
    case Booting(next) => 2 * (|s.types| - next) + 1 + Round(s)
    case Selecting => Round(s)
    case Handling(announce, chld, term, usr1) =>
      2 * One(announce) + (if chld then Round(s) - 3 else One(term) + One(usr1) + 1 + Round(s))
    case Scanning(_, term, usr1) =>
      ScanWork(s) + (if Ahead(s, pid) then 0 else 2 + One(term) + One(usr1) + Round(s))
    case Stopped => 0
  }

  lemma EnvTowardsReap(s: Sys, e: EnvEvent, pid: Pid)
    requires Sound(s) && Noticed(s, pid) && EnvEnabled(s.w, e)
    ensures var s' := Step(s, Env(e));
            && Noticed(s', pid) && s'.w.holder[pid] == s.w.holder[pid]
            && ToGo(s', pid) <= ToGo(s, pid) + 2 * Deaths([Env(e)])
  {
    EnvFrame(s.w, e);
    EnvZombies(s, e);
    hide EnvStep, Sound;
    assert Ahead(Step(s, Env(e)), pid) == Ahead(s, pid);
  }

  lemma ReapTowardsReap(s: Sys, newPid: Pid, pid: Pid)
    requires Sound(s) && Noticed(s, pid) && DaemonEnabled(s, ScanReap(newPid)) && pid != s.d.children[s.pc.i]
    ensures var s' := AfterReap(s, newPid);
            && Noticed(s', pid) && s'.w.holder[pid] == s.w.holder[pid]
            && ToGo(s', pid) < ToGo(s, pid)
  {
    ReapKeepsPlace(s, newPid);
    hide Sound, Kernel, Ready, Conserved, Zombies, AfterReap, ZombiePid, Ahead, FreshPid, ToGo;
    StillZombie(s, newPid, pid);
    ReapZombies(s, newPid);
    SameSignals(s, newPid);
    if Ahead(s, pid) {
      ReapKeepsAhead(s, newPid, pid);
    }
    CloserInScan(s, AfterReap(s, newPid), pid);
  }

  lemma ReapKeepsPlace(s: Sys, newPid: Pid)
    requires Sound(s) && DaemonEnabled(s, ScanReap(newPid))
    ensures var s' := AfterReap(s, newPid);
            s'.pc == s.pc && |s'.d.children| <= |s.d.children| && Kernel(s)
  {
    ReapKeepsCount(s, newPid);
    hide TypeForPid;
  }

  lemma CloserInScan(s: Sys, s': Sys, pid: Pid)
    requires s.pc.Scanning? && s'.pc == s.pc && |s'.d.children| <= |s.d.children| && |Zombies(s')| < |Zombies(s)|
    requires Ahead(s, pid) ==> Ahead(s', pid)
    ensures ToGo(s', pid) < ToGo(s, pid)
  {
    hide Zombies, Ahead;
  }

  lemma ReapKeepsAhead(s: Sys, newPid: Pid, pid: Pid)
    requires Ahead(s, pid) && DaemonEnabled(s, ScanReap(newPid)) && pid != s.d.children[s.pc.i]
    ensures Ahead(AfterReap(s, newPid), pid)
  {
    hide TypeForPid, Bury, Spawn;
    var s' := AfterReap(s, newPid);
    var i := s.pc.i;
    var j :| i <= j < |s.d.children| && s.d.children[j] == pid;
    assert s'.d.children[j - 1] == pid;
    assert s'.d.children[i..][j - 1 - i] == pid;
  }

  lemma LookTowardsReap(s: Sys, pid: Pid)
    requires Sound(s) && Noticed(s, pid) && DaemonEnabled(s, ScanLive)
    ensures var s' := DaemonStep(s, ScanLive);
            && Noticed(s', pid) && s'.w.holder[pid] == s.w.holder[pid]
            && ToGo(s', pid) < ToGo(s, pid)
  {
    var s' := DaemonStep(s, ScanLive);
    assert Zombies(s') == Zombies(s);
    if Ahead(s, pid) {
      assert s.d.children[s.pc.i..] == [s.d.children[s.pc.i]] + s.d.children[s.pc.i + 1..];
    }
  }

  lemma ForkTowardsReap(s: Sys, e: DaemonEvent, pid: Pid)
    requires Sound(s) && Noticed(s, pid) && DaemonEnabled(s, e) && (e.BootFork? || e.TakeAnnouncement?)
    ensures var s' := DaemonStep(s, e);
            && Noticed(s', pid) && s'.w.holder[pid] == s.w.holder[pid]
            && ToGo(s', pid) < ToGo(s, pid)
  {
    var s' := DaemonStep(s, e);
    var kind := if e.BootFork? then s.types[s.pc.next] else s.w.pipe[0].kind;
    SpawnFacts(s.w, kind, s.d.bootMode, e.newPid);
    assert s'.d.children == s.d.children + [e.newPid];
    assert s'.w == Spawn(s.w.(pipe := s'.w.pipe), kind, s.d.bootMode, e.newPid);
    hide ReadAnnouncement;
    assert Zombies(s') == Zombies(s);
  }

  lemma OthersTowardsReap(s: Sys, e: DaemonEvent, pid: Pid)
    requires Sound(s) && Noticed(s, pid) && DaemonEnabled(s, e)
    requires e.TakeUsr1? || (IsQuiet(e) && !e.ScanLive?)
    ensures var s' := DaemonStep(s, e);
            && pid in s'.d.children && ZombiePid(s'.w, pid) && s'.w.holder[pid] == s.w.holder[pid]
            && Noticed(s', pid) && ToGo(s', pid) < ToGo(s, pid)
  {
    var s' := DaemonStep(s, e);
    assert Ready(s);
    hide Sound;
    SameZombies(s, e);
    assert s.d.children[0..] == s.d.children;
    hide ZombiePid, Zombies, EnterNormalMode;
  }

  lemma SameZombies(s: Sys, e: DaemonEvent)
    requires DaemonEnabled(s, e) && (IsQuiet(e) || e.TakeUsr1?)
    ensures var s' := DaemonStep(s, e);
            && s'.d.children == s.d.children && s'.w.holder == s.w.holder
            && (forall p :: ZombiePid(s'.w, p) == ZombiePid(s.w, p))
            && Zombies(s') == Zombies(s)
    ensures e.TakeUsr1? ==> var s' := DaemonStep(s, e);
              s'.pc == Handling(false, false, false, false) && s'.w.chldPipe == s.w.chldPipe
  {
    var s' := DaemonStep(s, e);
    if e.TakeUsr1? {
      TermFrame(s.w.(usr1Pipe := s.w.usr1Pipe - 1), RecordedPids(s.d));
    }
    hide SendTerm, RecordedPids;
    assert forall p :: ZombiePid(s'.w, p) == ZombiePid(s.w, p);
  }

  /** One step: the child is reaped, or is closer to it. */
  lemma StepTowardsReap(s: Sys, e: Event, pid: Pid)
    requires Sound(s) && Noticed(s, pid) && Enabled(s, e)
    ensures var s' := Step(s, e);
            !Holds(s'.w, s.w.holder[pid]) ||
            (Noticed(s', pid) && s'.w.holder[pid] == s.w.holder[pid]
             && ToGo(s', pid) + DaemonSteps([e]) <= ToGo(s, pid) + 2 * Deaths([e]))
  {
    hide ToGo, Sound;
    if e.Env? {
      EnvTowardsReap(s, e.env, pid);
    } else if e.dmn.ScanReap? {
      if pid == s.d.children[s.pc.i] {
        ReapedIsGone(s, e.dmn.newPid);
      } else {
        ReapTowardsReap(s, e.dmn.newPid, pid);
      }
    } else if e.dmn.ScanLive? {
      LookTowardsReap(s, pid);
    } else if e.dmn.BootFork? || e.dmn.TakeAnnouncement? {
      ForkTowardsReap(s, e.dmn, pid);
    } else {
      OthersTowardsReap(s, e.dmn, pid);
    }
  }

  lemma ReapedIsGone(s: Sys, newPid: Pid)
    requires Sound(s) && DaemonEnabled(s, ScanReap(newPid))
    ensures !Holds(AfterReap(s, newPid).w, s.w.holder[s.d.children[s.pc.i]])
  {
    BuriedFacts(s);
    hide TypeForPid;
  }

  lemma ProcsStay(s: Sys, e: Event)
    requires Enabled(s, e)
    ensures |Step(s, e).w.procs| >= |s.w.procs|
  {
    if e.Env? {
      EnvFrame(s.w, e.env);
      hide EnvStep;
    } else if e.dmn.ScanReap? {
      ReapAddsProcs(s, e.dmn.newPid);
      hide AfterReap;
    } else if e.dmn.TakeUsr1? {
      TermFrame(s.w.(usr1Pipe := s.w.usr1Pipe - 1), RecordedPids(s.d));
      hide SendTerm, RecordedPids;
    } else {
      hide ReadAnnouncement, ForkBooster, Holds, FreshPid;
    }
  }

  lemma ReapAddsProcs(s: Sys, newPid: Pid)
    requires DaemonEnabled(s, ScanReap(newPid))
    ensures |AfterReap(s, newPid).w.procs| >= |s.w.procs|
  {
    hide TypeForPid, Reap, FreshPid;
  }

  /** A process that has been reaped does not come back. */
  lemma GoneStaysGone(s: Sys, e: Event, k: nat)
    requires Sound(s) && Enabled(s, e) && k < |s.w.procs| && !Holds(s.w, k)
    ensures k < |Step(s, e).w.procs| && !Holds(Step(s, e).w, k)
  {
    if e.Env? {
      EnvFrame(s.w, e.env);
      hide EnvStep;
    } else if e.dmn.ScanReap? {
      ReapKeepsGone(s, e.dmn.newPid, k);
      hide AfterReap;
    } else if e.dmn.BootFork? || e.dmn.TakeAnnouncement? {
      ForkKeepsGone(s, e.dmn, k);
      hide DaemonStep;
    } else {
      QuietKeepsGone(s, e.dmn, k);
      hide DaemonStep;
    }
  }

  lemma ReapKeepsGone(s: Sys, newPid: Pid, k: nat)
    requires Kernel(s) && DaemonEnabled(s, ScanReap(newPid)) && k < |s.w.procs| && !Holds(s.w, k)
    ensures k < |AfterReap(s, newPid).w.procs| && !Holds(AfterReap(s, newPid).w, k)
  {
    BuriedFacts(s);
    hide Kernel, TypeForPid, Bury;
  }

  lemma ForkKeepsGone(s: Sys, e: DaemonEvent, k: nat)
    requires DaemonEnabled(s, e) && (e.BootFork? || e.TakeAnnouncement?) && k < |s.w.procs| && !Holds(s.w, k)
    ensures k < |DaemonStep(s, e).w.procs| && !Holds(DaemonStep(s, e).w, k)
  {
    hide ReadAnnouncement, ForkBooster;
  }

  lemma QuietKeepsGone(s: Sys, e: DaemonEvent, k: nat)
    requires DaemonEnabled(s, e) && (IsQuiet(e) || e.TakeUsr1?) && k < |s.w.procs| && !Holds(s.w, k)
    ensures k < |DaemonStep(s, e).w.procs| && !Holds(DaemonStep(s, e).w, k)
  {
    if e.TakeUsr1? {
      TermFrame(s.w.(usr1Pipe := s.w.usr1Pipe - 1), RecordedPids(s.d));
    }
    hide SendTerm, RecordedPids;
  }

  lemma {:induction false} RunGoneStaysGone(s: Sys, es: seq<Event>, k: nat)
    requires Sound(s) && CanRun(s, es) && k < |s.w.procs| && !Holds(s.w, k)
    ensures !Holds(Run(s, es).w, k)
    decreases |es|
  {
    hide Sound, Step;
    if es != [] {
      GoneStaysGone(s, es[0], k);
      StepKeepsSound(s, es[0]);
      RunGoneStaysGone(Step(s, es[0]), es[1..], k);
    }
  }

  lemma {:induction false} NoticedIsReaped(s: Sys, es: seq<Event>, pid: Pid)
    requires Sound(s) && Noticed(s, pid) && CanRun(s, es)
    ensures !Holds(Run(s, es).w, s.w.holder[pid]) || DaemonSteps(es) <= ToGo(s, pid) + 2 * Deaths(es)
    decreases |es|
  {
    if es == [] {
      ToGoIsSmall(s, pid);
    } else {
      hide Sound, Step, ToGo;
      var s' := Step(s, es[0]);
      StepTowardsReap(s, es[0], pid);
      StepKeepsSound(s, es[0]);
      assert DaemonSteps([es[0]]) == if es[0].Dmn? then 1 else 0;
      assert Deaths([es[0]]) == if es[0].Env? && es[0].env.Die? then 1 else 0;
      if Holds(s'.w, s.w.holder[pid]) {
        NoticedIsReaped(s', es[1..], pid);
      } else {
        ProcsStay(s, es[0]);
        RunGoneStaysGone(s', es[1..], s.w.holder[pid]);
      }
    }
  }

  lemma ToGoIsSmall(s: Sys, pid: Pid)
    requires Sound(s) && Noticed(s, pid)
    ensures 0 <= ToGo(s, pid) <= 2 * (|s.d.children| + |Zombies(s)| + |s.types|) + 8
  {
    assert pid in Zombies(s);
    assert |Zombies(s)| >= 1;
  }

  /** Reaping is prompt. Take any reachable state in which no SIGCHLD is still to be delivered, and a
      dead child. In any continuation, whatever else happens, as soon as the daemon has made more than
      2 * (children + dead children + types) + 8 steps, and two more for each further death, that
      child has been reaped. */
  lemma PromptReapingTheorem(types: seq<char>, bootMode: bool, es: seq<Event>, fs: seq<Event>, k: nat)
    requires CanRun(Start(types, bootMode), es) && CanRun(Run(Start(types, bootMode), es), fs)
    requires var s := Run(Start(types, bootMode), es);
             && k < |s.w.procs| && s.w.procs[k].status.Dead? && !s.w.chldPending
             && DaemonSteps(fs) > 2 * (|s.d.children| + |Zombies(s)| + |s.types|) + 8 + 2 * Deaths(fs)
    ensures !Holds(Run(Run(Start(types, bootMode), es), fs).w, k)
  {
    hide Run, CanRun;
    var s := Run(Start(types, bootMode), es);
    SoundnessTheorem(types, bootMode, es);
    if Holds(s.w, k) {
      var pid := s.w.procs[k].pid;
      WatchedIsNoticed(s, pid);
      ToGoIsSmall(s, pid);
      NoticedIsReaped(s, fs, pid);
    } else {
      RunGoneStaysGone(s, fs, k);
    }
  }

  lemma WatchedIsNoticed(s: Sys, pid: Pid)
    requires Sound(s) && pid in s.w.holder && ZombiePid(s.w, pid) && !s.w.chldPending
    ensures Noticed(s, pid)
  {
    assert pid in s.d.children;
    var j :| 0 <= j < |s.d.children| && s.d.children[j] == pid;
    if s.w.chldPipe == 0 {
      assert s.d.children[s.pc.i..][j - s.pc.i] == pid;
    }
  }

  /** And the daemon can make these steps: as long as a noticed child is not reaped, and the daemon
      has not stopped, it has a next step, even from select. */
  lemma CanGoOnReaping(s: Sys, pid: Pid) returns (e: DaemonEvent)
    requires Sound(s) && Noticed(s, pid) && !s.pc.Stopped?
    ensures DaemonEnabled(s, e)
  {
    if s.pc.Selecting? {
      e := Wake;
    } else {
      e := NextStep(s);
    }
  }
}
