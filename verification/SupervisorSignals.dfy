/**
 The signals that the daemon sends to invokers, and exactly when they are the right ones. Nothing is
 assumed about the run.
*/
module SupervisorSignals {
  import opened Supervisor
  import opened SupervisorTable

  /** The invoker a launched booster has to answer for: 0 when none waits, and before the booster
      announces. */
  ghost function Answers(p: Proc): int {
    if p.stage.Announced? then ReportedInvoker(p.stage) else 0
  }

  /** Signal `r` was owed: its booster is gone, was killed by that signal, and had announced that it
      took the request of that waiting invoker. */
  ghost predicate Owed(w: World, r: KillRecord) {
    && r.booster < |w.procs| && !Holds(w, r.booster)
    && r.target != 0 && Answers(w.procs[r.booster]) == r.target
    && w.procs[r.booster].status == Dead(Killed(r.signal))
  }

  /** The signals sent to invokers are those owed: none that was not, none twice, none missing. */
  ghost predicate Settled(w: World) {
    && (forall n | 0 <= n < |w.kills| :: Owed(w, w.kills[n]))
    && (forall m, n | 0 <= m < n < |w.kills| :: w.kills[m].booster != w.kills[n].booster)
    && (forall r: KillRecord | Owed(w, r) :: r in w.kills)
  }

  // ---------- Steps that signal no invoker ----------

  lemma SameSettled(w: World, w': World)
    requires w'.kills == w.kills
    requires forall r: KillRecord :: Owed(w', r) == Owed(w, r)
    ensures Settled(w') == Settled(w)
  {
    hide Owed;
  }

  lemma SettledNames(w: World)
    requires Settled(w)
    ensures forall n | 0 <= n < |w.kills| :: w.kills[n].booster < |w.procs|
  {
  }

  lemma EnvKeepsSettled(s: Sys, e: EnvEvent)
    requires Kernel(s) && EnvEnabled(s.w, e)
    ensures Settled(EnvStep(s.w, e)) == Settled(s.w)
  {
    var w' := EnvStep(s.w, e);
    forall r: KillRecord ensures Owed(w', r) == Owed(s.w, r) {
      if r.booster < |s.w.procs| && !Holds(s.w, r.booster) {
        assert w'.procs[r.booster] == s.w.procs[r.booster];
      }
    }
    SameSettled(s.w, w');
  }

  lemma SpawnKeepsSettled(w: World, kind: char, boot: bool, newPid: Pid)
    requires FreshPid(w, newPid) && forall n | 0 <= n < |w.kills| :: w.kills[n].booster < |w.procs|
    ensures Settled(Spawn(w, kind, boot, newPid)) == Settled(w)
  {
    var w' := Spawn(w, kind, boot, newPid);
    forall r: KillRecord ensures Owed(w', r) == Owed(w, r) {
      if r.booster < |w.procs| {
        assert Holds(w', r.booster) == Holds(w, r.booster);
      }
    }
  }

  lemma TakeKeepsSettled(s: Sys, newPid: Pid)
    requires Settled(s.w) && DaemonEnabled(s, TakeAnnouncement(newPid))
    ensures Settled(AfterRead(s, newPid).w)
  {
    hide ReadAnnouncement;
    var w1 := s.w.(pipe := s.w.pipe[1..]);
    assert forall k | 0 <= k < |s.w.procs| :: Holds(w1, k) == Holds(s.w, k);
    assert forall r: KillRecord :: Owed(w1, r) == Owed(s.w, r);
    SettledNames(w1);
    hide Settled;
    SpawnKeepsSettled(w1, s.w.pipe[0].kind, s.d.bootMode, newPid);
  }

  /** The processes and their pids look the same, except for SIGTERMs sent. */
  ghost predicate SameProcs(w: World, w': World) {
    && w'.holder == w.holder && w'.kills == w.kills
    && |w'.procs| == |w.procs|
    && forall k | 0 <= k < |w.procs| :: w'.procs[k].(termSent := w.procs[k].termSent) == w.procs[k]
  }

  lemma SameProcsKeepSettled(w: World, w': World)
    requires SameProcs(w, w')
    ensures Settled(w') == Settled(w)
  {
    assert forall k | 0 <= k < |w.procs| :: Holds(w', k) == Holds(w, k);
    assert forall r: KillRecord :: Owed(w', r) == Owed(w, r);
  }

  lemma QuietKeepsProcs(s: Sys, e: DaemonEvent)
    requires DaemonEnabled(s, e) && (IsQuiet(e) || e.TakeUsr1?)
    ensures SameProcs(s.w, DaemonStep(s, e).w)
  {
    if e.TakeUsr1? {
      TermFrame(s.w.(usr1Pipe := s.w.usr1Pipe - 1), RecordedPids(s.d));
    }
    hide SendTerm, RecordedPids, Holds;
  }

  // ---------- The step that does ----------

  /** If the dead child was killed by a signal, the daemon has noted for it exactly the waiting invoker
      that the child announced, if any. */
  ghost predicate KnowsInvoker(s: Sys)
    requires AtZombie(s)
  {
    var pid := s.d.children[s.pc.i];
    var p := s.w.procs[s.w.holder[pid]];
    p.status.how.Killed? ==>
      && (pid in s.d.invokerOf <==> Answers(p) != 0)
      && (pid in s.d.invokerOf ==> s.d.invokerOf[pid] == Answers(p))
  }

  lemma NewlyOwed(s: Sys)
    requires Kernel(s) && AtZombie(s)
    ensures var k := s.w.holder[s.d.children[s.pc.i]];
            var p := s.w.procs[k];
            && Holds(s.w, k)
            && forall r: KillRecord ::
              && (Owed(Buried(s), r) <==>
                    Owed(s.w, r) || (r.booster == k && r.target != 0 && r.target == Answers(p)
                                     && p.status == Dead(Killed(r.signal))))
              && (Owed(s.w, r) ==> r.booster != k)
  {
    BuriedFacts(s);
    assert Holds(s.w, s.w.holder[s.d.children[s.pc.i]]);
  }

  lemma BuriedKills(s: Sys)
    requires AtZombie(s)
    ensures var pid := s.d.children[s.pc.i];
            var k := s.w.holder[pid];
            var how := s.w.procs[k].status.how;
            Buried(s).kills == if pid in s.d.invokerOf && how.Killed?
                               then s.w.kills + [KillRecord(s.d.invokerOf[pid], how.signal, k)] else s.w.kills
    ensures Buried(s).procs == s.w.procs
  {
  }

  lemma OneMoreSettled(w: World, w': World, r: KillRecord)
    requires Settled(w) && w'.kills == w.kills + [r]
    requires forall q: KillRecord :: Owed(w', q) <==> Owed(w, q) || q == r
    requires forall q: KillRecord | Owed(w, q) :: q.booster != r.booster
    ensures Settled(w')
  {
    hide Owed;
    assert w'.kills[|w.kills|] == r;
    forall q: KillRecord | Owed(w', q) ensures q in w'.kills {
      assert q != r ==> q in w.kills;
    }
  }

  lemma LastIsOwed(w: World, w': World, r: KillRecord)
    requires w'.kills == w.kills + [r] && !Owed(w', r)
    ensures !Settled(w')
  {
    assert w'.kills[|w.kills|] == r;
  }

  lemma OneIsMissing(w: World, w': World, r: KillRecord)
    requires Settled(w) && w'.kills == w.kills && !Owed(w, r) && Owed(w', r)
    requires forall q: KillRecord | Owed(w, q) :: q.booster != r.booster
    ensures !Settled(w')
  {
    hide Owed;
  }

  lemma BuryKeepsSettledIff(s: Sys)
    requires AtZombie(s)
    requires Kernel(s) && Settled(s.w)
    ensures Settled(Buried(s)) <==> KnowsInvoker(s)
  {
    hide Kernel, Owed, Settled, Holds, Answers, Bury;
    var pid := s.d.children[s.pc.i];
    var k := s.w.holder[pid];
    var p := s.w.procs[k];
    BuriedKills(s);
    NewlyOwed(s);
    if p.status.how.Killed? {
      var known := pid in s.d.invokerOf;
      var owed := KillRecord(if known then s.d.invokerOf[pid] else Answers(p), p.status.how.signal, k);
      forall q: KillRecord
        ensures Owed(Buried(s), q) <==> Owed(s.w, q) || (q == owed.(target := Answers(p)) && q.target != 0)
      {
      }
      if known && owed.target == Answers(p) != 0 {
        OneMoreSettled(s.w, Buried(s), owed);
      } else if known {
        LastIsOwed(s.w, Buried(s), owed);
      } else if Answers(p) != 0 {
        OneIsMissing(s.w, Buried(s), owed);
      } else {
        SameSettled(s.w, Buried(s));
      }
    } else {
      SameSettled(s.w, Buried(s));
    }
  }

  /** A reap leaves the signals right if and only if the daemon knows the invoker of a killed child. */
  lemma ReapKeepsSettledExactly(s: Sys, newPid: Pid)
    requires DaemonEnabled(s, ScanReap(newPid))
    requires Kernel(s) && Settled(s.w)
    ensures Settled(AfterReap(s, newPid).w) <==> KnowsInvoker(s)
  {
    BuryKeepsSettledIff(s);
    KillsAreOfProcs(s);
    hide Settled, Kernel, KnowsInvoker, TypeForPid;
    SpawnKeepsSettled(Buried(s), TypeForPid(s.d.typeToPid, s.d.children[s.pc.i]), s.d.bootMode, newPid);
  }

  lemma KillsAreOfProcs(s: Sys)
    requires AtZombie(s) && Settled(s.w)
    ensures forall n | 0 <= n < |Buried(s).kills| :: Buried(s).kills[n].booster < |Buried(s).procs|
  {
    BuriedKills(s);
    SettledNames(s.w);
  }

  // ---------- Whole runs ----------

  /** When a killed child is reaped, the daemon knows its invoker. */
  ghost predicate RuleK(s: Sys, e: Event)
    requires Enabled(s, e)
  {
    e.Dmn? && e.dmn.ScanReap? ==> KnowsInvoker(s)
  }

  ghost predicate ObeysK(s: Sys, es: seq<Event>)
    requires CanRun(s, es)
    decreases |es|
  {
    es == [] || (RuleK(s, es[0]) && ObeysK(Step(s, es[0]), es[1..]))
  }

  /** The signals are right in every state that the run passes through. */
  ghost predicate SettledThroughout(s: Sys, es: seq<Event>)
    requires CanRun(s, es)
    decreases |es|
  {
    Settled(s.w) && (es == [] || SettledThroughout(Step(s, es[0]), es[1..]))
  }

  /** Exactly the steps that obey rule K keep the signals right. */
  lemma StepKeepsSettledExactly(s: Sys, e: Event)
    requires Kernel(s) && Settled(s.w) && Enabled(s, e)
    ensures Settled(Step(s, e).w) <==> RuleK(s, e)
  {
    hide Settled, Kernel, KnowsInvoker, AtZombie, EnvStep, EnvEnabled, AfterRead, AfterReap, SameProcs;
    if e.Env? {
      EnvKeepsSettled(s, e.env);
    } else if e.dmn.BootFork? {
      BootForkKeepsSettled(s, e.dmn.newPid);
    } else if e.dmn.TakeAnnouncement? {
      TakeKeepsSettled(s, e.dmn.newPid);
    } else if e.dmn.ScanReap? {
      ReapKeepsSettledExactly(s, e.dmn.newPid);
    } else {
      QuietKeepsProcs(s, e.dmn);
      SameProcsKeepSettled(s.w, DaemonStep(s, e.dmn).w);
      hide DaemonStep;
    }
  }

  lemma BootForkKeepsSettled(s: Sys, newPid: Pid)
    requires Settled(s.w) && DaemonEnabled(s, BootFork(newPid))
    ensures Settled(DaemonStep(s, BootFork(newPid)).w)
  {
    SettledNames(s.w);
    hide Settled;
    SpawnKeepsSettled(s.w, s.types[s.pc.next], s.d.bootMode, newPid);
  }

  lemma {:induction false} RunKeepsSettledExactly(s: Sys, es: seq<Event>)
    requires Sound(s) && Settled(s.w) && CanRun(s, es)
    ensures SettledThroughout(s, es) <==> ObeysK(s, es)
    decreases |es|
  {
    if es != [] {
      StepKeepsSound(s, es[0]);
      StepKeepsSettledExactly(s, es[0]);
      hide Sound, Settled, RuleK, Step;
      if RuleK(s, es[0]) {
        RunKeepsSettledExactly(Step(s, es[0]), es[1..]);
      } else {
        NotSettledThroughout(Step(s, es[0]), es[1..]);
      }
    }
  }

  lemma NotSettledThroughout(s: Sys, es: seq<Event>)
    requires CanRun(s, es) && !Settled(s.w)
    ensures !SettledThroughout(s, es)
  {
  }

  /** Over every run from start-up, torn announcements and all, the signals are right in every state if
      and only if the daemon knows the invoker of each killed child that it reaps. */
  lemma SignalsAreRightIff(types: seq<char>, bootMode: bool, es: seq<Event>)
    requires CanRun(Start(types, bootMode), es)
    ensures SettledThroughout(Start(types, bootMode), es) <==> ObeysK(Start(types, bootMode), es)
  {
    SoundnessTheorem(types, bootMode, []);
    RunKeepsSettledExactly(Start(types, bootMode), es);
  }
}
